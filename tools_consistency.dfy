/**
 The four tables of the tool catalogue agree with each other: the registry and
 the descriptions hold the same 37 tools, every tool is categorised and is
 reachable through some permission tier, and no list names an unknown tool.
 Categories and tiers overlap, and no tier's list contains another's.
 */
module ToolsConsistency {

  import opened DictLiteral
  import opened Catalogue
  import opened Tools

  /** The registry's keys in the order written: the category lists in turn, with
      the two subscription tools that AI optimisation shares written only once. */
  const RegisteredInOrder: seq<string> :=
    CategoriesDisplay[0].1 + CategoriesDisplay[1].1 + CategoriesDisplay[2].1 + CategoriesDisplay[3].1
    + CategoriesDisplay[4].1[..3] + CategoriesDisplay[5].1 + CategoriesDisplay[6].1

  /** Each comment group of the registry registers one category's tools, in its order. */
  lemma RegistryGroupsFollowCategories()
    ensures Keys(CorePaymentTools) == CategoriesDisplay[0].1
    ensures Keys(WalletManagementTools) == CategoriesDisplay[1].1
    ensures Keys(SubscriptionManagementTools) == CategoriesDisplay[2].1
    ensures Keys(AnalyticsTools) == CategoriesDisplay[3].1
    ensures Keys(AiOptimizationTools) == CategoriesDisplay[4].1[..3]
    ensures Keys(MonitoringTools) == CategoriesDisplay[5].1
    ensures Keys(ComplianceAuditTools) == CategoriesDisplay[6].1
  {
  }

  /** The registry display writes its keys in category order. */
  lemma RegistryFollowsCategories()
    ensures Keys(RegistryDisplay) == RegisteredInOrder
  {
    RegistryGroupsFollowCategories();
    var g := [CorePaymentTools, WalletManagementTools, SubscriptionManagementTools, AnalyticsTools,
              AiOptimizationTools, MonitoringTools, ComplianceAuditTools];
    KeysOfAppend(g[0], g[1]);
    KeysOfAppend(g[0] + g[1], g[2]);
    KeysOfAppend(g[0] + g[1] + g[2], g[3]);
    KeysOfAppend(g[0] + g[1] + g[2] + g[3], g[4]);
    KeysOfAppend(g[0] + g[1] + g[2] + g[3] + g[4], g[5]);
    KeysOfAppend(g[0] + g[1] + g[2] + g[3] + g[4] + g[5], g[6]);
  }

  /** Each comment group of the descriptions describes the same registry group, in its order. */
  lemma DescriptionGroupsFollowRegistry()
    ensures Keys(PaymentDescriptions) == Keys(CorePaymentTools)
    ensures Keys(WalletDescriptions) == Keys(WalletManagementTools)
    ensures Keys(SubscriptionDescriptions) == Keys(SubscriptionManagementTools)
    ensures Keys(AnalyticsDescriptions) == Keys(AnalyticsTools)
    ensures Keys(AiOptimizationDescriptions) == Keys(AiOptimizationTools)
    ensures Keys(MonitoringDescriptions) == Keys(MonitoringTools)
    ensures Keys(ComplianceDescriptions) == Keys(ComplianceAuditTools)
  {
  }

  /** The descriptions are written for the registered tools, in registry order. */
  lemma DescriptionsFollowRegistry()
    ensures Keys(DescriptionsDisplay) == Keys(RegistryDisplay)
  {
    DescriptionGroupsFollowRegistry();
    var g := [PaymentDescriptions, WalletDescriptions, SubscriptionDescriptions, AnalyticsDescriptions,
              AiOptimizationDescriptions, MonitoringDescriptions, ComplianceDescriptions];
    KeysOfAppend(g[0], g[1]);
    KeysOfAppend(g[0] + g[1], g[2]);
    KeysOfAppend(g[0] + g[1] + g[2], g[3]);
    KeysOfAppend(g[0] + g[1] + g[2] + g[3], g[4]);
    KeysOfAppend(g[0] + g[1] + g[2] + g[3] + g[4], g[5]);
    KeysOfAppend(g[0] + g[1] + g[2] + g[3] + g[4] + g[5], g[6]);
    var r := [CorePaymentTools, WalletManagementTools, SubscriptionManagementTools, AnalyticsTools,
              AiOptimizationTools, MonitoringTools, ComplianceAuditTools];
    KeysOfAppend(r[0], r[1]);
    KeysOfAppend(r[0] + r[1], r[2]);
    KeysOfAppend(r[0] + r[1] + r[2], r[3]);
    KeysOfAppend(r[0] + r[1] + r[2] + r[3], r[4]);
    KeysOfAppend(r[0] + r[1] + r[2] + r[3] + r[4], r[5]);
    KeysOfAppend(r[0] + r[1] + r[2] + r[3] + r[4] + r[5], r[6]);
  }

  /** No category list names a tool twice. */
  lemma CategoryListsHaveNoRepeats()
    ensures forall i :: 0 <= i < |CategoriesDisplay| ==> NoRepeats(CategoriesDisplay[i].1)
  {
  }

  // Each category list, and so each registry group (RegistryGroupsFollowCategories),
  // names only tools not in an earlier list.

  lemma WalletToolsAreNew()
    ensures Disjoint(CategoriesDisplay[0].1, CategoriesDisplay[1].1)
  {
  }

  lemma SubscriptionToolsAreNew()
    ensures Disjoint(CategoriesDisplay[0].1 + CategoriesDisplay[1].1, CategoriesDisplay[2].1)
  {
  }

  lemma AnalyticsToolsAreNew()
    ensures Disjoint(CategoriesDisplay[0].1 + CategoriesDisplay[1].1 + CategoriesDisplay[2].1,
                     CategoriesDisplay[3].1)
  {
  }

  lemma AiOptimizationToolsAreNew()
    ensures Disjoint(CategoriesDisplay[0].1 + CategoriesDisplay[1].1 + CategoriesDisplay[2].1
                     + CategoriesDisplay[3].1, CategoriesDisplay[4].1[..3])
  {
  }

  lemma MonitoringToolsAreNewFront()
    ensures Disjoint(CategoriesDisplay[0].1 + CategoriesDisplay[1].1 + CategoriesDisplay[2].1,
                     CategoriesDisplay[5].1)
  {
  }

  lemma MonitoringToolsAreNewBack()
    ensures Disjoint(CategoriesDisplay[3].1 + CategoriesDisplay[4].1[..3], CategoriesDisplay[5].1)
  {
  }

  lemma MonitoringToolsAreNew()
    ensures Disjoint(CategoriesDisplay[0].1 + CategoriesDisplay[1].1 + CategoriesDisplay[2].1
                     + CategoriesDisplay[3].1 + CategoriesDisplay[4].1[..3], CategoriesDisplay[5].1)
  {
    var c := CategoriesDisplay;
    MonitoringToolsAreNewFront();
    MonitoringToolsAreNewBack();
    DisjointAppend(c[0].1 + c[1].1 + c[2].1, c[3].1 + c[4].1[..3], c[5].1);
    assert c[0].1 + c[1].1 + c[2].1 + (c[3].1 + c[4].1[..3])
        == c[0].1 + c[1].1 + c[2].1 + c[3].1 + c[4].1[..3];
  }

  lemma ComplianceToolsAreNewFront()
    ensures Disjoint(CategoriesDisplay[0].1 + CategoriesDisplay[1].1 + CategoriesDisplay[2].1,
                     CategoriesDisplay[6].1)
  {
  }

  lemma ComplianceToolsAreNewBack()
    ensures Disjoint(CategoriesDisplay[3].1 + CategoriesDisplay[4].1[..3] + CategoriesDisplay[5].1,
                     CategoriesDisplay[6].1)
  {
  }

  lemma ComplianceToolsAreNew()
    ensures Disjoint(CategoriesDisplay[0].1 + CategoriesDisplay[1].1 + CategoriesDisplay[2].1
                     + CategoriesDisplay[3].1 + CategoriesDisplay[4].1[..3] + CategoriesDisplay[5].1,
                     CategoriesDisplay[6].1)
  {
    var c := CategoriesDisplay;
    ComplianceToolsAreNewFront();
    ComplianceToolsAreNewBack();
    DisjointAppend(c[0].1 + c[1].1 + c[2].1, c[3].1 + c[4].1[..3] + c[5].1, c[6].1);
    assert c[0].1 + c[1].1 + c[2].1 + (c[3].1 + c[4].1[..3] + c[5].1)
        == c[0].1 + c[1].1 + c[2].1 + c[3].1 + c[4].1[..3] + c[5].1;
  }

  /** No tool name is written twice in the registry. */
  lemma RegisteredInOrderHasNoRepeats()
    ensures NoRepeats(RegisteredInOrder)
  {
    var c := CategoriesDisplay;
    CategoryListsHaveNoRepeats();
    assert NoRepeats(c[4].1[..3]);
    WalletToolsAreNew();
    SubscriptionToolsAreNew();
    AnalyticsToolsAreNew();
    AiOptimizationToolsAreNew();
    MonitoringToolsAreNew();
    ComplianceToolsAreNew();
    NoRepeatsAppend(c[0].1, c[1].1);
    NoRepeatsAppend(c[0].1 + c[1].1, c[2].1);
    NoRepeatsAppend(c[0].1 + c[1].1 + c[2].1, c[3].1);
    NoRepeatsAppend(c[0].1 + c[1].1 + c[2].1 + c[3].1, c[4].1[..3]);
    NoRepeatsAppend(c[0].1 + c[1].1 + c[2].1 + c[3].1 + c[4].1[..3], c[5].1);
    NoRepeatsAppend(c[0].1 + c[1].1 + c[2].1 + c[3].1 + c[4].1[..3] + c[5].1, c[6].1);
  }

  /** No tool name is written twice in the registry display. */
  lemma RegistryKeysDistinct()
    ensures DistinctKeys(RegistryDisplay)
  {
    RegistryFollowsCategories();
    RegisteredInOrderHasNoRepeats();
  }

  /** The registered tools are exactly the 37 names written as keys of the registry
      display, which are the category lists taken in order with the two subscription
      tools that AI optimisation shares written once. */
  lemma RegisteredNames()
    ensures |Keys(RegistryDisplay)| == 37 && NoRepeats(Keys(RegistryDisplay))
    ensures forall name :: name in ToolRegistry <==> name in Keys(RegistryDisplay)
    ensures Keys(RegistryDisplay) == RegisteredInOrder
  {
    RegistryFollowsCategories();
    RegisteredInOrderHasNoRepeats();
    KeysAreDictKeys(RegistryDisplay);
  }

  /** The registry holds 37 tools. */
  lemma RegistrySize()
    ensures DistinctKeys(RegistryDisplay)
    ensures |ToolRegistry| == 37
  {
    RegistryKeysDistinct();
    DistinctDisplay(RegistryDisplay);
  }

  /** Exactly the registered tools are described. */
  lemma DescriptionsCoverRegistry()
    ensures ToolDescriptions.Keys == ToolRegistry.Keys
  {
    DescriptionsFollowRegistry();
    KeysAreDictKeys(RegistryDisplay);
    KeysAreDictKeys(DescriptionsDisplay);
  }

  /** Every text written in a description display is non-empty. */
  predicate TextsNonEmpty(entries: seq<(string, string)>)
  {
    forall i :: 0 <= i < |entries| ==> |entries[i].1| > 0
  }

  lemma TextsNonEmptyAppend(a: seq<(string, string)>, b: seq<(string, string)>)
    requires TextsNonEmpty(a) && TextsNonEmpty(b)
    ensures TextsNonEmpty(a + b)
  {
    forall i | 0 <= i < |a + b| ensures |(a + b)[i].1| > 0 {
      if i < |a| { assert (a + b)[i] == a[i]; } else { assert (a + b)[i] == b[i - |a|]; }
    }
  }

  // Each group of the description display writes non-empty texts.

  lemma PaymentTextsNonEmpty() ensures TextsNonEmpty(PaymentDescriptions) { }
  lemma WalletTextsNonEmpty() ensures TextsNonEmpty(WalletDescriptions) { }
  lemma SubscriptionTextsNonEmpty() ensures TextsNonEmpty(SubscriptionDescriptions) { }
  lemma AnalyticsTextsNonEmpty() ensures TextsNonEmpty(AnalyticsDescriptions) { }
  lemma AiOptimizationTextsNonEmpty() ensures TextsNonEmpty(AiOptimizationDescriptions) { }
  lemma MonitoringTextsNonEmpty() ensures TextsNonEmpty(MonitoringDescriptions) { }
  lemma ComplianceTextsNonEmpty() ensures TextsNonEmpty(ComplianceDescriptions) { }

  /** Every description written is a non-empty text. */
  lemma DescriptionTextsNonEmpty()
    ensures TextsNonEmpty(DescriptionsDisplay)
    ensures forall entry :: entry in DescriptionsDisplay ==> entry.1 != ""
  {
    var g := [PaymentDescriptions, WalletDescriptions, SubscriptionDescriptions, AnalyticsDescriptions,
              AiOptimizationDescriptions, MonitoringDescriptions, ComplianceDescriptions];
    PaymentTextsNonEmpty();
    WalletTextsNonEmpty();
    SubscriptionTextsNonEmpty();
    AnalyticsTextsNonEmpty();
    AiOptimizationTextsNonEmpty();
    MonitoringTextsNonEmpty();
    ComplianceTextsNonEmpty();
    TextsNonEmptyAppend(g[0], g[1]);
    TextsNonEmptyAppend(g[0] + g[1], g[2]);
    TextsNonEmptyAppend(g[0] + g[1] + g[2], g[3]);
    TextsNonEmptyAppend(g[0] + g[1] + g[2] + g[3], g[4]);
    TextsNonEmptyAppend(g[0] + g[1] + g[2] + g[3] + g[4], g[5]);
    TextsNonEmptyAppend(g[0] + g[1] + g[2] + g[3] + g[4] + g[5], g[6]);
    forall entry | entry in DescriptionsDisplay ensures entry.1 != "" {
      var i :| 0 <= i < |DescriptionsDisplay| && DescriptionsDisplay[i] == entry;
    }
  }

  /** Every tool's description is a non-empty text. */
  lemma DescriptionsNonEmpty()
    ensures forall name :: name in ToolDescriptions ==> ToolDescriptions[name] != ""
  {
    RegistryKeysDistinct();
    DescriptionsFollowRegistry();
    SameKeysSameRepeats(RegistryDisplay, DescriptionsDisplay);
    DescriptionTextsNonEmpty();
    NonEmptyFromDisplay(DescriptionsDisplay);
  }

  /** A description display without repeated keys whose texts are non-empty
      evaluates to a dict of non-empty texts. */
  lemma NonEmptyFromDisplay(entries: seq<(string, string)>)
    requires DistinctKeys(entries) && TextsNonEmpty(entries)
    ensures forall name :: name in DictOf(entries) ==> DictOf(entries)[name] != ""
  {
    forall name | name in DictOf(entries) ensures DictOf(entries)[name] != "" {
      var i :| 0 <= i < |Keys(entries)| && Keys(entries)[i] == name;
      DistinctValueAt(entries, i);
    }
  }

  /** The registry and the descriptions hold exactly the same 37 tools, and
      every description is a non-empty text. */
  lemma RegistryAndDescriptions()
    ensures |ToolRegistry| == 37 && |ToolDescriptions| == 37
    ensures ToolDescriptions.Keys == ToolRegistry.Keys
    ensures Described(ToolRegistry, ToolDescriptions)
  {
    RegistrySize();
    DescriptionsCoverRegistry();
    DescriptionsNonEmpty();
  }

  lemma CategoryKeysDistinct()
    ensures DistinctKeys(CategoriesDisplay)
  {
  }

  lemma PermissionKeysDistinct()
    ensures DistinctKeys(PermissionsDisplay)
  {
  }

  /** The categories are exactly the seven labels. */
  lemma CategoryLabels()
    ensures ToolCategories.Keys ==
      {"payments", "wallets", "subscriptions", "analytics", "ai_optimization", "monitoring", "compliance"}
  {
    KeysAreDictKeys(CategoriesDisplay);
    CategoryLabelsKeys();
  }

  lemma CategoryLabelsKeys()
    ensures Keys(CategoriesDisplay) == ["payments", "wallets", "subscriptions", "analytics", "ai_optimization", "monitoring", "compliance"]
  {
  }

  /** There are seven categories. */
  lemma CategoryCount()
    ensures |ToolCategories| == 7
  {
    CategoryKeysDistinct();
    DistinctDisplay(CategoriesDisplay);
  }

  /** Each category holds the list written for it. */
  lemma CategoryLists()
    ensures "payments" in ToolCategories && ToolCategories["payments"] == CategoriesDisplay[0].1
    ensures "wallets" in ToolCategories && ToolCategories["wallets"] == CategoriesDisplay[1].1
    ensures "subscriptions" in ToolCategories && ToolCategories["subscriptions"] == CategoriesDisplay[2].1
    ensures "analytics" in ToolCategories && ToolCategories["analytics"] == CategoriesDisplay[3].1
    ensures "ai_optimization" in ToolCategories && ToolCategories["ai_optimization"] == CategoriesDisplay[4].1
    ensures "monitoring" in ToolCategories && ToolCategories["monitoring"] == CategoriesDisplay[5].1
    ensures "compliance" in ToolCategories && ToolCategories["compliance"] == CategoriesDisplay[6].1
  {
    CategoryKeysDistinct();
    DistinctValueAt(CategoriesDisplay, 0);
    DistinctValueAt(CategoriesDisplay, 1);
    DistinctValueAt(CategoriesDisplay, 2);
    DistinctValueAt(CategoriesDisplay, 3);
    DistinctValueAt(CategoriesDisplay, 4);
    DistinctValueAt(CategoriesDisplay, 5);
    DistinctValueAt(CategoriesDisplay, 6);
  }

  /** The tiers are exactly the six labels. */
  lemma PermissionTiers()
    ensures ToolPermissions.Keys ==
      {"public", "user", "analyst", "ai_operator", "operator", "admin"}
  {
    KeysAreDictKeys(PermissionsDisplay);
    PermissionTiersKeys();
  }

  lemma PermissionTiersKeys()
    ensures Keys(PermissionsDisplay) == ["public", "user", "analyst", "ai_operator", "operator", "admin"]
  {
  }

  /** There are six tiers. */
  lemma TierCount()
    ensures |ToolPermissions| == 6
  {
    PermissionKeysDistinct();
    DistinctDisplay(PermissionsDisplay);
  }

  /** Each tier holds the list written for it. */
  lemma PermissionLists()
    ensures "public" in ToolPermissions && ToolPermissions["public"] == PermissionsDisplay[0].1
    ensures "user" in ToolPermissions && ToolPermissions["user"] == PermissionsDisplay[1].1
    ensures "analyst" in ToolPermissions && ToolPermissions["analyst"] == PermissionsDisplay[2].1
    ensures "ai_operator" in ToolPermissions && ToolPermissions["ai_operator"] == PermissionsDisplay[3].1
    ensures "operator" in ToolPermissions && ToolPermissions["operator"] == PermissionsDisplay[4].1
    ensures "admin" in ToolPermissions && ToolPermissions["admin"] == PermissionsDisplay[5].1
  {
    PermissionKeysDistinct();
    DistinctValueAt(PermissionsDisplay, 0);
    DistinctValueAt(PermissionsDisplay, 1);
    DistinctValueAt(PermissionsDisplay, 2);
    DistinctValueAt(PermissionsDisplay, 3);
    DistinctValueAt(PermissionsDisplay, 4);
    DistinctValueAt(PermissionsDisplay, 5);
  }

  lemma FlattenCategories()
    ensures Flatten(CategoriesDisplay) ==
      CategoriesDisplay[0].1 + CategoriesDisplay[1].1 + CategoriesDisplay[2].1 + CategoriesDisplay[3].1
      + CategoriesDisplay[4].1 + CategoriesDisplay[5].1 + CategoriesDisplay[6].1
  {
    var c := CategoriesDisplay;
    assert Flatten(c[7..]) == [];
    assert Flatten(c[6..]) == c[6].1 + Flatten(c[7..]);
    assert Flatten(c[5..]) == c[5].1 + Flatten(c[6..]);
    assert Flatten(c[4..]) == c[4].1 + Flatten(c[5..]);
    assert Flatten(c[3..]) == c[3].1 + Flatten(c[4..]);
    assert Flatten(c[2..]) == c[2].1 + Flatten(c[3..]);
    assert Flatten(c[1..]) == c[1].1 + Flatten(c[2..]);
  }

  lemma FlattenPermissions()
    ensures Flatten(PermissionsDisplay) ==
      PermissionsDisplay[0].1 + PermissionsDisplay[1].1 + PermissionsDisplay[2].1
      + PermissionsDisplay[3].1 + PermissionsDisplay[4].1 + PermissionsDisplay[5].1
  {
    var p := PermissionsDisplay;
    assert Flatten(p[6..]) == [];
    assert Flatten(p[5..]) == p[5].1 + Flatten(p[6..]);
    assert Flatten(p[4..]) == p[4].1 + Flatten(p[5..]);
    assert Flatten(p[3..]) == p[3].1 + Flatten(p[4..]);
    assert Flatten(p[2..]) == p[2].1 + Flatten(p[3..]);
    assert Flatten(p[1..]) == p[1].1 + Flatten(p[2..]);
  }

  /** The category lists name exactly the registered tools. */
  lemma CategoriesNameRegisteredTools()
    ensures forall name :: name in Flatten(CategoriesDisplay) <==> name in RegisteredInOrder
  {
    FlattenCategories();
  }

  /** Every category list names only registered tools, every registered tool is
      under some category, no list repeats a tool, and the lists together name
      exactly the registry's tools. */
  lemma CategoriesAgree()
    ensures Consistent(ToolRegistry, ToolCategories)
    ensures Listed(ToolCategories) == ToolRegistry.Keys
  {
    CategoryKeysDistinct();
    CategoryListsHaveNoRepeats();
    CategoriesNameRegisteredTools();
    RegisteredNames();
    ResolvesFromDisplay(ToolRegistry, CategoriesDisplay);
    CoversFromDisplay(ToolRegistry, CategoriesDisplay);
    ListsAreSetsFromDisplay(CategoriesDisplay);
    ListedIsRegistry(ToolRegistry, ToolCategories);
  }

  /** No tier list names a tool twice. */
  lemma PermissionListsHaveNoRepeats()
    ensures forall i :: 0 <= i < |PermissionsDisplay| ==> NoRepeats(PermissionsDisplay[i].1)
  {
  }

  /** The tier lists name only registered tools. */
  lemma TierListsNameRegisteredTools()
    ensures forall name :: name in Flatten(PermissionsDisplay) ==> name in RegisteredInOrder
  {
    FlattenPermissions();
    assert CategoriesDisplay[4].1[..3] == ["optimize_payment_routing", "create_payment_optimized", "smart_payment_routing"];
  }

  /** Every registered tool is named in some tier list. */
  lemma RegisteredToolsAreInTierLists()
    ensures forall name :: name in RegisteredInOrder ==> name in Flatten(PermissionsDisplay)
  {
    FlattenPermissions();
  }

  /** Every tier list names only registered tools, every registered tool is
      reachable through some tier, no list repeats a tool, and the lists
      together name exactly the registry's tools. */
  lemma PermissionsAgree()
    ensures Consistent(ToolRegistry, ToolPermissions)
    ensures Listed(ToolPermissions) == ToolRegistry.Keys
  {
    PermissionKeysDistinct();
    PermissionListsHaveNoRepeats();
    TierListsNameRegisteredTools();
    RegisteredToolsAreInTierLists();
    RegisteredNames();
    ResolvesFromDisplay(ToolRegistry, PermissionsDisplay);
    CoversFromDisplay(ToolRegistry, PermissionsDisplay);
    ListsAreSetsFromDisplay(PermissionsDisplay);
    ListedIsRegistry(ToolRegistry, ToolPermissions);
  }

  /** The four tables agree: the catalogue is well formed. */
  lemma CatalogueWellFormed()
    ensures WellFormed(ToolRegistry, ToolDescriptions, ToolCategories, ToolPermissions)
  {
    RegistryAndDescriptions();
    CategoriesAgree();
    PermissionsAgree();
  }

  /** Every tool is reachable through some tier and listed under some category, and
      a name that is not registered is neither. */
  lemma EveryToolReachable(name: string)
    ensures TiersFor(ToolPermissions, name) != {} <==> name in ToolRegistry
    ensures CategoriesOf(ToolCategories, name) != {} <==> name in ToolRegistry
  {
    CatalogueWellFormed();
    ReachableIffRegistered(ToolRegistry, ToolDescriptions, ToolCategories, ToolPermissions, name);
  }
}
