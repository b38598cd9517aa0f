/**
 What the permission and category tables say about individual tools. A tier
 may use exactly the tools in its own list: tiers overlap, no tier's list
 contains another's (the admin list, commented "full access", included), and
 categories overlap too, so a tool can have more than one category.
 */
module ToolAccess {

  import opened DictLiteral
  import opened Catalogue
  import opened Tools
  import opened ToolsConsistency

  /** Every handler written in a registry display is the function bearing the tool's name. */
  predicate BindsOwnName(entries: seq<(string, Handler)>)
  {
    forall i :: 0 <= i < |entries| ==> entries[i].1.functionName == entries[i].0
  }

  lemma BindsOwnNameAppend(a: seq<(string, Handler)>, b: seq<(string, Handler)>)
    requires BindsOwnName(a) && BindsOwnName(b)
    ensures BindsOwnName(a + b)
  {
    forall i | 0 <= i < |a + b| ensures (a + b)[i].1.functionName == (a + b)[i].0 {
      if i < |a| { assert (a + b)[i] == a[i]; } else { assert (a + b)[i] == b[i - |a|]; }
    }
  }

  // Each group of the registry display binds every tool to the function of its own name.

  lemma CorePaymentToolsBindOwnName() ensures BindsOwnName(CorePaymentTools) { }
  lemma WalletManagementToolsBindOwnName() ensures BindsOwnName(WalletManagementTools) { }
  lemma SubscriptionManagementToolsBindOwnName() ensures BindsOwnName(SubscriptionManagementTools) { }
  lemma AnalyticsToolsBindOwnName() ensures BindsOwnName(AnalyticsTools) { }
  lemma AiOptimizationToolsBindOwnName() ensures BindsOwnName(AiOptimizationTools) { }
  lemma MonitoringToolsBindOwnName() ensures BindsOwnName(MonitoringTools) { }
  lemma ComplianceAuditToolsBindOwnName() ensures BindsOwnName(ComplianceAuditTools) { }

  /** Every handler written in the registry is bound to the tool's own name. */
  lemma HandlerEntriesBindOwnName()
    ensures forall entry :: entry in RegistryDisplay ==> entry.1.functionName == entry.0
  {
    var g := [CorePaymentTools, WalletManagementTools, SubscriptionManagementTools, AnalyticsTools,
              AiOptimizationTools, MonitoringTools, ComplianceAuditTools];
    CorePaymentToolsBindOwnName();
    WalletManagementToolsBindOwnName();
    SubscriptionManagementToolsBindOwnName();
    AnalyticsToolsBindOwnName();
    AiOptimizationToolsBindOwnName();
    MonitoringToolsBindOwnName();
    ComplianceAuditToolsBindOwnName();
    BindsOwnNameAppend(g[0], g[1]);
    BindsOwnNameAppend(g[0] + g[1], g[2]);
    BindsOwnNameAppend(g[0] + g[1] + g[2], g[3]);
    BindsOwnNameAppend(g[0] + g[1] + g[2] + g[3], g[4]);
    BindsOwnNameAppend(g[0] + g[1] + g[2] + g[3] + g[4], g[5]);
    BindsOwnNameAppend(g[0] + g[1] + g[2] + g[3] + g[4] + g[5], g[6]);
    assert BindsOwnName(RegistryDisplay);
    forall entry | entry in RegistryDisplay ensures entry.1.functionName == entry.0 {
      var i :| 0 <= i < |RegistryDisplay| && RegistryDisplay[i] == entry;
    }
  }

  /** Each group of the registry display imports its handlers from one sibling
      module; the AI optimisation tools come from the analytics module. */
  lemma HandlerGroupsShareModule()
    ensures forall i :: 0 <= i < |CorePaymentTools| ==> CorePaymentTools[i].1.origin == Payments
    ensures forall i :: 0 <= i < |WalletManagementTools| ==> WalletManagementTools[i].1.origin == Wallets
    ensures forall i :: 0 <= i < |SubscriptionManagementTools| ==> SubscriptionManagementTools[i].1.origin == Subscriptions
    ensures forall i :: 0 <= i < |AnalyticsTools| ==> AnalyticsTools[i].1.origin == Analytics
    ensures forall i :: 0 <= i < |AiOptimizationTools| ==> AiOptimizationTools[i].1.origin == Analytics
    ensures forall i :: 0 <= i < |MonitoringTools| ==> MonitoringTools[i].1.origin == Monitoring
    ensures forall i :: 0 <= i < |ComplianceAuditTools| ==> ComplianceAuditTools[i].1.origin == Compliance
  {
  }

  /** Every registered tool is bound to the function of its own name. */
  lemma HandlersBindOwnName()
    ensures forall name :: name in ToolRegistry ==>
      ToolRegistry[name].functionName == name
  {
    RegistryKeysDistinct();
    DistinctDisplay(RegistryDisplay);
    HandlerEntriesBindOwnName();
    forall name | name in ToolRegistry
      ensures ToolRegistry[name].functionName == name
    {
      var i :| 0 <= i < |RegistryDisplay| && RegistryDisplay[i].0 == name;
      assert RegistryDisplay[i] in RegistryDisplay;
    }
  }

  /** Refunds are reachable through the admin tier only. */
  lemma RefundOnlyThroughAdmin()
    ensures TiersFor(ToolPermissions, "refund_payment") == {"admin"}
  {
    PermissionKeysDistinct();
    assert PermissionsDisplay[5].0 == "admin";
    ContainingFromDisplay(PermissionsDisplay, "refund_payment", {"admin"});
  }

  /** Subscription metrics are reachable through the analyst tier only. */
  lemma SubscriptionMetricsOnlyThroughAnalyst()
    ensures TiersFor(ToolPermissions, "get_subscription_metrics") == {"analyst"}
  {
    PermissionKeysDistinct();
    assert PermissionsDisplay[2].0 == "analyst";
    ContainingFromDisplay(PermissionsDisplay, "get_subscription_metrics", {"analyst"});
  }

  /** Smart routing is reachable through both the analyst and the AI operator tiers. */
  lemma SmartRoutingInTwoTiers()
    ensures TiersFor(ToolPermissions, "smart_payment_routing") == {"analyst", "ai_operator"}
  {
    PermissionKeysDistinct();
    assert PermissionsDisplay[2].0 == "analyst" && PermissionsDisplay[3].0 == "ai_operator";
    ContainingFromDisplay(PermissionsDisplay, "smart_payment_routing", {"analyst", "ai_operator"});
  }

  /** Subscription health analysis is reachable through both the analyst and the AI operator tiers. */
  lemma HealthAnalysisInTwoTiers()
    ensures TiersFor(ToolPermissions, "analyze_subscription_health") == {"analyst", "ai_operator"}
  {
    PermissionKeysDistinct();
    assert PermissionsDisplay[2].0 == "analyst" && PermissionsDisplay[3].0 == "ai_operator";
    ContainingFromDisplay(PermissionsDisplay, "analyze_subscription_health", {"analyst", "ai_operator"});
  }

  /** Fraud detection is reachable through both the AI operator and the operator tiers. */
  lemma FraudDetectionInTwoTiers()
    ensures TiersFor(ToolPermissions, "detect_fraud_patterns") == {"ai_operator", "operator"}
  {
    PermissionKeysDistinct();
    assert PermissionsDisplay[3].0 == "ai_operator" && PermissionsDisplay[4].0 == "operator";
    ContainingFromDisplay(PermissionsDisplay, "detect_fraud_patterns", {"ai_operator", "operator"});
  }

  /** Tier lists overlap: these tools are reachable through two tiers each. */
  lemma TiersOverlap()
    ensures TiersFor(ToolPermissions, "smart_payment_routing") == {"analyst", "ai_operator"}
    ensures TiersFor(ToolPermissions, "analyze_subscription_health") == {"analyst", "ai_operator"}
    ensures TiersFor(ToolPermissions, "detect_fraud_patterns") == {"ai_operator", "operator"}
    ensures exists name :: |TiersFor(ToolPermissions, name)| > 1
  {
    SmartRoutingInTwoTiers();
    HealthAnalysisInTwoTiers();
    FraudDetectionInTwoTiers();
    assert |TiersFor(ToolPermissions, "smart_payment_routing")| == 2;
  }

  /** The public payment status query is reachable through the public tier only. */
  lemma StatusOnlyThroughPublic()
    ensures TiersFor(ToolPermissions, "get_payment_status") == {"public"}
  {
    PermissionKeysDistinct();
    assert PermissionsDisplay[0].0 == "public";
    ContainingFromDisplay(PermissionsDisplay, "get_payment_status", {"public"});
  }

  /** Payment creation is reachable through the user tier only. */
  lemma CreatePaymentOnlyThroughUser()
    ensures TiersFor(ToolPermissions, "create_payment") == {"user"}
  {
    PermissionKeysDistinct();
    assert PermissionsDisplay[1].0 == "user";
    ContainingFromDisplay(PermissionsDisplay, "create_payment", {"user"});
  }

  /** Payment metrics are reachable through the analyst tier only. */
  lemma PaymentMetricsOnlyThroughAnalyst()
    ensures TiersFor(ToolPermissions, "get_payment_metrics") == {"analyst"}
  {
    PermissionKeysDistinct();
    assert PermissionsDisplay[2].0 == "analyst";
    ContainingFromDisplay(PermissionsDisplay, "get_payment_metrics", {"analyst"});
  }

  /** Routing optimisation is reachable through the AI operator tier only. */
  lemma RoutingOptimizationOnlyThroughAiOperator()
    ensures TiersFor(ToolPermissions, "optimize_payment_routing") == {"ai_operator"}
  {
    PermissionKeysDistinct();
    assert PermissionsDisplay[3].0 == "ai_operator";
    ContainingFromDisplay(PermissionsDisplay, "optimize_payment_routing", {"ai_operator"});
  }

  /** Alert creation is reachable through the operator tier only. */
  lemma CreateAlertOnlyThroughOperator()
    ensures TiersFor(ToolPermissions, "create_alert") == {"operator"}
  {
    PermissionKeysDistinct();
    assert PermissionsDisplay[4].0 == "operator";
    ContainingFromDisplay(PermissionsDisplay, "create_alert", {"operator"});
  }

  /** Every tier has a tool that only it may use. */
  lemma EveryTierOwnsATool()
    ensures forall tier :: tier in ToolPermissions ==> exists name :: TiersFor(ToolPermissions, name) == {tier}
  {
    PermissionTiers();
    StatusOnlyThroughPublic();
    CreatePaymentOnlyThroughUser();
    PaymentMetricsOnlyThroughAnalyst();
    RoutingOptimizationOnlyThroughAiOperator();
    CreateAlertOnlyThroughOperator();
    RefundOnlyThroughAdmin();
  }

  /** Tiers are not nested: no tier's list is contained in another tier's list, so a
      tier is granted nothing through another tier, whatever their rank. */
  lemma TiersNotNested()
    ensures forall tier, rival :: tier in ToolPermissions && rival in ToolPermissions && tier != rival ==>
      exists name :: name in ToolPermissions[tier] && name !in ToolPermissions[rival]
  {
    EveryTierOwnsATool();
    forall tier, rival | tier in ToolPermissions && rival in ToolPermissions && tier != rival
      ensures exists name :: name in ToolPermissions[tier] && name !in ToolPermissions[rival]
    {
      var name :| TiersFor(ToolPermissions, name) == {tier};
      ExclusiveNameBreaksNesting(ToolPermissions, tier, rival, name);
    }
  }

  /** The admin tier, commented "full access", lists five tools and may use neither
      the public status query nor the user payment creation. */
  lemma AdminIsNotFullAccess()
    ensures "admin" in ToolPermissions && |ToolPermissions["admin"]| == 5
    ensures Allowed(ToolPermissions, "public", "get_payment_status")
    ensures !Allowed(ToolPermissions, "admin", "get_payment_status")
    ensures Allowed(ToolPermissions, "user", "create_payment")
    ensures !Allowed(ToolPermissions, "admin", "create_payment")
    ensures exists name :: name in ToolRegistry && !Allowed(ToolPermissions, "admin", name)
  {
    PermissionLists();
    StatusOnlyThroughPublic();
    CreatePaymentOnlyThroughUser();
    RegistrySize();
    RegisteredNames();
    assert "create_payment" in RegisteredInOrder;
  }

  /** AI-optimised subscription creation is under both the subscription and the
      AI-optimisation categories. */
  lemma OptimizedSubscriptionInTwoCategories()
    ensures CategoriesOf(ToolCategories, "create_subscription_optimized") == {"subscriptions", "ai_optimization"}
  {
    CategoryKeysDistinct();
    assert CategoriesDisplay[2].0 == "subscriptions" && CategoriesDisplay[4].0 == "ai_optimization";
    ContainingFromDisplay(CategoriesDisplay, "create_subscription_optimized", {"subscriptions", "ai_optimization"});
  }

  /** Subscription health analysis is under both the subscription and the
      AI-optimisation categories. */
  lemma HealthAnalysisInTwoCategories()
    ensures CategoriesOf(ToolCategories, "analyze_subscription_health") == {"subscriptions", "ai_optimization"}
  {
    CategoryKeysDistinct();
    assert CategoriesDisplay[2].0 == "subscriptions" && CategoriesDisplay[4].0 == "ai_optimization";
    ContainingFromDisplay(CategoriesDisplay, "analyze_subscription_health", {"subscriptions", "ai_optimization"});
  }

  /** Categories overlap, so not every registered tool has exactly one category. */
  lemma CategoriesOverlap()
    ensures !(forall name :: name in ToolRegistry ==> |CategoriesOf(ToolCategories, name)| == 1)
  {
    OptimizedSubscriptionInTwoCategories();
    RegisteredNames();
    assert "create_subscription_optimized" in RegisteredInOrder;
    assert |CategoriesOf(ToolCategories, "create_subscription_optimized")| == 2;
  }
}
