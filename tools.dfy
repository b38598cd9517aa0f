/**
 The catalogue of payment-system tools: the registry of tool handlers, the
 tool categories, the tool descriptions and the tool permissions, each as the
 dict display it is written as, in the order it is written, and the four
 dicts those displays evaluate to.
 */
module Tools {

  import opened DictLiteral

  /** The sibling modules the handlers are imported from. */
  datatype Sibling = Payments | Wallets | Analytics | Monitoring | Compliance | Subscriptions

  /** A tool handler, known only by the sibling module it is imported from and
      the name it is bound to there; its behaviour is not modelled. */
  datatype Handler = Handler(origin: Sibling, functionName: string)

  /** Core payment tools, as grouped in the registry display. */
  const CorePaymentTools: seq<(string, Handler)> := [
    ("create_payment", Handler(Payments, "create_payment")),
    ("verify_payment", Handler(Payments, "verify_payment")),
    ("refund_payment", Handler(Payments, "refund_payment")),
    ("get_payment_status", Handler(Payments, "get_payment_status"))
  ]

  /** Wallet management tools, as grouped in the registry display. */
  const WalletManagementTools: seq<(string, Handler)> := [
    ("get_wallet_balance", Handler(Wallets, "get_wallet_balance")),
    ("transfer_funds", Handler(Wallets, "transfer_funds")),
    ("wallet_transaction_history", Handler(Wallets, "wallet_transaction_history")),
    ("top_up_wallet", Handler(Wallets, "top_up_wallet"))
  ]

  /** Subscription management tools, as grouped in the registry display. */
  const SubscriptionManagementTools: seq<(string, Handler)> := [
    ("create_subscription", Handler(Subscriptions, "create_subscription")),
    ("get_subscription", Handler(Subscriptions, "get_subscription")),
    ("update_subscription", Handler(Subscriptions, "update_subscription")),
    ("cancel_subscription", Handler(Subscriptions, "cancel_subscription")),
    ("get_subscription_metrics", Handler(Subscriptions, "get_subscription_metrics")),
    ("create_subscription_optimized", Handler(Subscriptions, "create_subscription_optimized")),
    ("analyze_subscription_health", Handler(Subscriptions, "analyze_subscription_health"))
  ]

  /** Analytics tools, as grouped in the registry display. */
  const AnalyticsTools: seq<(string, Handler)> := [
    ("get_payment_metrics", Handler(Analytics, "get_payment_metrics")),
    ("analyze_user_behavior", Handler(Analytics, "analyze_user_behavior")),
    ("generate_revenue_analytics", Handler(Analytics, "generate_revenue_analytics")),
    ("detect_fraud_patterns", Handler(Analytics, "detect_fraud_patterns")),
    ("generate_performance_report", Handler(Analytics, "generate_performance_report")),
    ("get_dashboard_metrics", Handler(Analytics, "get_dashboard_metrics")),
    ("generate_custom_report", Handler(Analytics, "generate_custom_report"))
  ]

  /** AI optimisation tools, as grouped in the registry display. */
  const AiOptimizationTools: seq<(string, Handler)> := [
    ("optimize_payment_routing", Handler(Analytics, "optimize_payment_routing")),
    ("create_payment_optimized", Handler(Analytics, "create_payment_optimized")),
    ("smart_payment_routing", Handler(Analytics, "smart_payment_routing"))
  ]

  /** Monitoring tools, as grouped in the registry display. */
  const MonitoringTools: seq<(string, Handler)> := [
    ("perform_health_check", Handler(Monitoring, "perform_health_check")),
    ("create_alert", Handler(Monitoring, "create_alert")),
    ("resolve_alert", Handler(Monitoring, "resolve_alert")),
    ("record_performance_metric", Handler(Monitoring, "record_performance_metric")),
    ("log_error", Handler(Monitoring, "log_error")),
    ("get_system_status", Handler(Monitoring, "get_system_status")),
    ("get_active_alerts", Handler(Monitoring, "get_active_alerts")),
    ("get_performance_metrics", Handler(Monitoring, "get_performance_metrics"))
  ]

  /** Compliance and audit tools, as grouped in the registry display. */
  const ComplianceAuditTools: seq<(string, Handler)> := [
    ("generate_audit_report", Handler(Compliance, "generate_audit_report")),
    ("export_compliance_data", Handler(Compliance, "export_compliance_data")),
    ("validate_pci_compliance", Handler(Compliance, "validate_pci_compliance")),
    ("get_audit_trail", Handler(Compliance, "get_audit_trail"))
  ]

  /** The registry display: tool name to handler, the groups written in this order. */
  const RegistryDisplay: seq<(string, Handler)> :=
    CorePaymentTools + WalletManagementTools + SubscriptionManagementTools + AnalyticsTools
    + AiOptimizationTools + MonitoringTools + ComplianceAuditTools

  /** The category display: category to its ordered list of tool names. */
  const CategoriesDisplay: seq<(string, seq<string>)> := [
    ("payments", [
      "create_payment",
      "verify_payment",
      "refund_payment",
      "get_payment_status"]),
    ("wallets", [
      "get_wallet_balance",
      "transfer_funds",
      "wallet_transaction_history",
      "top_up_wallet"]),
    ("subscriptions", [
      "create_subscription",
      "get_subscription",
      "update_subscription",
      "cancel_subscription",
      "get_subscription_metrics",
      "create_subscription_optimized",
      "analyze_subscription_health"]),
    ("analytics", [
      "get_payment_metrics",
      "analyze_user_behavior",
      "generate_revenue_analytics",
      "detect_fraud_patterns",
      "generate_performance_report",
      "get_dashboard_metrics",
      "generate_custom_report"]),
    ("ai_optimization", [
      "optimize_payment_routing",
      "create_payment_optimized",
      "smart_payment_routing",
      "create_subscription_optimized",
      "analyze_subscription_health"]),
    ("monitoring", [
      "perform_health_check",
      "create_alert",
      "resolve_alert",
      "record_performance_metric",
      "log_error",
      "get_system_status",
      "get_active_alerts",
      "get_performance_metrics"]),
    ("compliance", [
      "generate_audit_report",
      "export_compliance_data",
      "validate_pci_compliance",
      "get_audit_trail"])
  ]

  /** Payment tools, as grouped in the description display. */
  const PaymentDescriptions: seq<(string, string)> := [
    ("create_payment", "Initialize a new payment transaction with provider integration"),
    ("verify_payment", "Verify payment status and update transaction state"),
    ("refund_payment", "Process payment refund with audit trail"),
    ("get_payment_status", "Retrieve current payment status and details")
  ]

  /** Wallet tools, as grouped in the description display. */
  const WalletDescriptions: seq<(string, string)> := [
    ("get_wallet_balance", "Retrieve current wallet balance for user"),
    ("transfer_funds", "Execute P2P or merchant transfer"),
    ("wallet_transaction_history", "Get wallet transaction history"),
    ("top_up_wallet", "Add funds to user wallet")
  ]

  /** Subscription tools, as grouped in the description display. */
  const SubscriptionDescriptions: seq<(string, string)> := [
    ("create_subscription", "Create new subscription plan"),
    ("get_subscription", "Retrieve subscription details"),
    ("update_subscription", "Update subscription parameters"),
    ("cancel_subscription", "Cancel active subscription"),
    ("get_subscription_metrics", "Get subscription analytics"),
    ("create_subscription_optimized", "Create AI-optimized subscription with intelligent pricing and routing"),
    ("analyze_subscription_health", "AI-powered subscription health analysis and churn prediction")
  ]

  /** Analytics tools, as grouped in the description display. */
  const AnalyticsDescriptions: seq<(string, string)> := [
    ("get_payment_metrics", "Generate comprehensive payment metrics and KPIs"),
    ("analyze_user_behavior", "Analyze user behavior patterns and engagement"),
    ("generate_revenue_analytics", "Generate revenue analytics and forecasting"),
    ("detect_fraud_patterns", "Detect fraud patterns and analyze transaction risk"),
    ("generate_performance_report", "Generate system performance analytics"),
    ("get_dashboard_metrics", "Get real-time dashboard metrics and KPIs"),
    ("generate_custom_report", "Generate custom analytics reports")
  ]

  /** AI optimisation tools, as grouped in the description display. */
  const AiOptimizationDescriptions: seq<(string, string)> := [
    ("optimize_payment_routing", "AI-powered payment routing optimization for cost, speed, or success rate"),
    ("create_payment_optimized", "Create AI-optimized payment with intelligent routing and fraud detection"),
    ("smart_payment_routing", "Intelligent payment routing based on customer profile and transaction context")
  ]

  /** Monitoring tools, as grouped in the description display. */
  const MonitoringDescriptions: seq<(string, string)> := [
    ("perform_health_check", "Perform comprehensive system health check"),
    ("create_alert", "Create system alert for monitoring"),
    ("resolve_alert", "Resolve existing system alert"),
    ("record_performance_metric", "Record performance metric for monitoring"),
    ("log_error", "Log error with comprehensive context"),
    ("get_system_status", "Get comprehensive system status overview"),
    ("get_active_alerts", "Get list of active system alerts"),
    ("get_performance_metrics", "Get performance metrics for analysis")
  ]

  /** Compliance tools, as grouped in the description display. */
  const ComplianceDescriptions: seq<(string, string)> := [
    ("generate_audit_report", "Generate compliance audit report"),
    ("export_compliance_data", "Export data for compliance requirements"),
    ("validate_pci_compliance", "Validate PCI-DSS compliance status"),
    ("get_audit_trail", "Retrieve audit trail for transactions")
  ]

  /** The description display: tool name to its documentation text. */
  const DescriptionsDisplay: seq<(string, string)> :=
    PaymentDescriptions + WalletDescriptions + SubscriptionDescriptions + AnalyticsDescriptions
    + AiOptimizationDescriptions + MonitoringDescriptions + ComplianceDescriptions

  /** The permission display: tier to the ordered list of tools it may use. */
  const PermissionsDisplay: seq<(string, seq<string>)> := [
    // Public tools (minimal authentication)
    ("public", [
      "get_payment_status",
      "get_wallet_balance",
      "perform_health_check",
      "get_system_status"]),
    // Standard user tools
    ("user", [
      "create_payment",
      "verify_payment",
      "transfer_funds",
      "wallet_transaction_history",
      "top_up_wallet",
      "create_subscription",
      "get_subscription",
      "update_subscription",
      "cancel_subscription"]),
    // Analytics user tools
    ("analyst", [
      "get_payment_metrics",
      "analyze_user_behavior",
      "generate_revenue_analytics",
      "get_dashboard_metrics",
      "generate_custom_report",
      "get_performance_metrics",
      "smart_payment_routing",
      "get_subscription_metrics",
      "analyze_subscription_health"]),
    // AI optimisation tools
    ("ai_operator", [
      "optimize_payment_routing",
      "create_payment_optimized",
      "smart_payment_routing",
      "detect_fraud_patterns",
      "create_subscription_optimized",
      "analyze_subscription_health"]),
    // Operations team tools
    ("operator", [
      "create_alert",
      "resolve_alert",
      "record_performance_metric",
      "log_error",
      "get_active_alerts",
      "detect_fraud_patterns",
      "generate_performance_report"]),
    // Admin tools ("full access")
    ("admin", [
      "refund_payment",
      "generate_audit_report",
      "export_compliance_data",
      "validate_pci_compliance",
      "get_audit_trail"])
  ]

  /** The four tables, as the dicts their displays evaluate to. */
  const ToolRegistry: map<string, Handler> := DictOf(RegistryDisplay)
  const ToolCategories: map<string, seq<string>> := DictOf(CategoriesDisplay)
  const ToolDescriptions: map<string, string> := DictOf(DescriptionsDisplay)
  const ToolPermissions: map<string, seq<string>> := DictOf(PermissionsDisplay)
}
