# Tool catalogue of the MCP payments server

This project models the tool catalogue of the MCP payments server. The
catalogue is four module-level dict literals in `app/mcp/tools/__init__.py`:

- `TOOL_REGISTRY`: 37 tool names, each mapped to a handler.
- `TOOL_CATEGORIES`: 7 category labels, each mapped to an ordered list of tool names.
- `TOOL_DESCRIPTIONS`: each tool name mapped to a documentation text.
- `TOOL_PERMISSIONS`: 6 permission tiers, each mapped to an ordered list of tool names. A tier may use exactly the tools in its own list.

The file holds no functions, loops or mutation. So the model is pure:
constants, predicates, functions and lemmas.

Layout:

- `dict_literal.dfy` (`DictLiteral`) models a Python dict display. It is the sequence of its entries in written order. The dict it evaluates to is `DictOf(entries)`, where a key written twice keeps the value of its last occurrence. This lets the model state that no key is written twice, and derive the size of each dict from that.
- `tools.dfy` (`Tools`) holds the four displays, transcribed entry by entry in source order. The registry and description displays are split into the comment groups the source uses. A handler is opaque: `Handler(origin, functionName)` records only the sibling module it is imported from and the name it is bound to there.
- `catalogue.dfy` (`Catalogue`) gives the generic shape of a catalogue:
  - `WellFormed` ties the four tables together: every tool is described, categorised and reachable, and no list names an unknown tool;
  - the direct readings `Allowed`, `TiersFor` and `CategoriesOf`;
  - lemmas that move facts from a display to the dict it evaluates to.
- `tools_consistency.dfy` (`ToolsConsistency`) proves that the concrete catalogue is well formed.
- `tool_access.dfy` (`ToolAccess`) states what the tables say about individual tools: which tiers reach a tool, where tiers overlap, why tiers are not nested, and where categories overlap.

Two readings the table names invite do not hold of the code, and the model
follows the code:

- One category per tool is a natural reading of `TOOL_CATEGORIES`. In the code, `create_subscription_optimized` and `analyze_subscription_health` are under both `subscriptions` (lines 128-129) and `ai_optimization` (lines 144-145). The model proves "at least one category" and proves that "exactly one" fails (`ToolAccess.CategoriesOverlap`).
- A rank order of tiers from `public` to `admin` is a natural reading of `TOOL_PERMISSIONS`, and line 276 comments the `admin` tier "full access". In the code each tier's list stands alone: no list contains another, and `admin` lists only 5 tools (lines 277-283). Permission is therefore membership in the tier's own list (`Catalogue.Allowed`), with no inheritance by rank.
- `Allowed` answers `false` for a label that is not a tier. The source has no lookup function; indexing `TOOL_PERMISSIONS` with an unknown tier would raise `KeyError` in Python.

## Model

| member | source | states |
|---|---|---|
| `DictLiteral.DictOf` | app/mcp/tools/__init__.py:55-106 | the dict a display evaluates to has exactly the keys written in the display |
| `DictLiteral.LastOccurrenceWins` | app/mcp/tools/__init__.py:55-106 | a key maps to the value of its last occurrence in the display |
| `DictLiteral.DistinctDisplay` | app/mcp/tools/__init__.py:55-106 | when no key repeats, every written entry survives and the dict has as many keys as the display has entries |
| `DictLiteral.KeySetSize` | app/mcp/tools/__init__.py:55-106 | a display never yields more keys than entries, and yields exactly as many only when no key repeats |
| `DictLiteral.RepeatedKeyShrinks` | app/mcp/tools/__init__.py:55-106 | a repeated key makes the dict smaller than the display |
| `DictLiteral.KeysAreDictKeys` | app/mcp/tools/__init__.py:55-106 | a name is a dict key exactly when it is written as a key in the display |
| `Catalogue.ContainingIsWritten` | app/mcp/tools/__init__.py:109-284 | in a table whose display repeats no tag, the tags whose list holds a name are exactly the written tags whose written list holds it |
| `Catalogue.TiersFromDisplay` | app/mcp/tools/__init__.py:220-284 | the tiers that may use a tool are exactly the tiers written with that tool in their list |
| `Catalogue.CategoriesFromDisplay` | app/mcp/tools/__init__.py:109-163 | the categories of a tool are exactly the categories written with that tool in their list |
| `Catalogue.ListedIsRegistry` | app/mcp/tools/__init__.py:109-163 | a table with no dangling entry that covers the registry lists exactly the registered tools |
| `Catalogue.ContainingNonEmptyIff` | app/mcp/tools/__init__.py:220-284 | in such a table, a name is in some list if and only if it is registered |
| `Catalogue.ReachableIffRegistered` | app/mcp/tools/__init__.py:109-284 | in a well-formed catalogue, a tool has a tier and has a category exactly when it is registered |
| `Catalogue.AllowedIffRegistered` | app/mcp/tools/__init__.py:220-284 | in a well-formed catalogue, some tier may use a name exactly when that name is registered |
| `Catalogue.ExclusiveNameBreaksNesting` | app/mcp/tools/__init__.py:220-284 | a tag that alone lists some name has a list contained in no other tag's list |
| `Catalogue.ResolvesFromDisplay` | app/mcp/tools/__init__.py:109-163 | a list table whose written names are all registered has no dangling entry |
| `Catalogue.CoversFromDisplay` | app/mcp/tools/__init__.py:220-284 | a list table that writes every registered name somewhere covers the registry |
| `Catalogue.ListsAreSetsFromDisplay` | app/mcp/tools/__init__.py:110-162 | a list table whose written lists repeat no name has lists that read as ordered sets |
| `ToolsConsistency.RegistryFollowsCategories` | app/mcp/tools/__init__.py:55-163 | the registry writes its tools in category order, with the two shared subscription tools written once |
| `ToolsConsistency.DescriptionsFollowRegistry` | app/mcp/tools/__init__.py:166-217 | the descriptions are written for the registered tools, in registry order |
| `ToolsConsistency.RegisteredInOrderHasNoRepeats` | app/mcp/tools/__init__.py:55-106 | no tool name is written twice among the registry's keys |
| `ToolsConsistency.RegistryKeysDistinct` | app/mcp/tools/__init__.py:55-106 | no key of the registry display is written twice, so no handler is overwritten |
| `ToolsConsistency.RegisteredNames` | app/mcp/tools/__init__.py:55-163 | the registry display writes 37 distinct keys, the registered tools are exactly those keys, and they are the category lists taken in order with the two shared subscription tools written once |
| `ToolsConsistency.RegistrySize` | app/mcp/tools/__init__.py:55-106 | the registry holds 37 tools |
| `ToolsConsistency.DescriptionsCoverRegistry` | app/mcp/tools/__init__.py:166-217 | the description keys equal the registry keys |
| `ToolsConsistency.DescriptionsNonEmpty` | app/mcp/tools/__init__.py:166-217 | every tool's description is a non-empty text |
| `ToolsConsistency.NonEmptyFromDisplay` | app/mcp/tools/__init__.py:166-217 | a description display without repeated keys whose written texts are non-empty evaluates to a dict of non-empty texts |
| `ToolsConsistency.RegistryAndDescriptions` | app/mcp/tools/__init__.py:55-217 | the registry and the descriptions hold the same 37 tools, each with a non-empty description |
| `ToolsConsistency.CategoryLabels` | app/mcp/tools/__init__.py:109-163 | the categories are exactly payments, wallets, subscriptions, analytics, ai_optimization, monitoring and compliance |
| `ToolsConsistency.CategoryCount` | app/mcp/tools/__init__.py:109-163 | there are seven categories |
| `ToolsConsistency.CategoryLists` | app/mcp/tools/__init__.py:110-162 | each category maps to the list written for it |
| `ToolsConsistency.PermissionTiers` | app/mcp/tools/__init__.py:220-284 | the tiers are exactly public, user, analyst, ai_operator, operator and admin |
| `ToolsConsistency.TierCount` | app/mcp/tools/__init__.py:220-284 | there are six tiers |
| `ToolsConsistency.PermissionLists` | app/mcp/tools/__init__.py:222-283 | each tier maps to the list written for it |
| `ToolsConsistency.CategoryListsHaveNoRepeats` | app/mcp/tools/__init__.py:110-162 | no category list names a tool twice |
| `ToolsConsistency.PermissionListsHaveNoRepeats` | app/mcp/tools/__init__.py:222-283 | no tier list names a tool twice |
| `ToolsConsistency.CategoriesNameRegisteredTools` | app/mcp/tools/__init__.py:109-163 | the category lists together name exactly the registered tools |
| `ToolsConsistency.TierListsNameRegisteredTools` | app/mcp/tools/__init__.py:220-284 | every name in a tier list is a registered tool |
| `ToolsConsistency.RegisteredToolsAreInTierLists` | app/mcp/tools/__init__.py:220-284 | every registered tool is named in some tier list |
| `ToolsConsistency.CategoriesAgree` | app/mcp/tools/__init__.py:109-163 | every category list names only registered tools, every tool is categorised, no list repeats a tool, and the union of the lists is the registry's key set |
| `ToolsConsistency.PermissionsAgree` | app/mcp/tools/__init__.py:220-284 | every tier list names only registered tools, every tool is reachable through some tier, no list repeats a tool, and the union of the lists is the registry's key set |
| `ToolsConsistency.CatalogueWellFormed` | app/mcp/tools/__init__.py:55-284 | the four tables agree: the catalogue is well formed |
| `ToolsConsistency.EveryToolReachable` | app/mcp/tools/__init__.py:220-284 | a name has a tier and a category exactly when it is registered |
| `ToolAccess.HandlerEntriesBindOwnName` | app/mcp/tools/__init__.py:55-106 | every handler written in the registry is the function bearing the tool's own name |
| `ToolAccess.HandlerGroupsShareModule` | app/mcp/tools/__init__.py:3-52 | each registry group imports its handlers from one sibling module; the AI optimisation tools come from the analytics module |
| `ToolAccess.HandlersBindOwnName` | app/mcp/tools/__init__.py:55-106 | every registered tool is bound to the function of its own name |
| `ToolAccess.RefundOnlyThroughAdmin` | app/mcp/tools/__init__.py:277-283 | refund_payment is reachable through the admin tier only |
| `ToolAccess.SubscriptionMetricsOnlyThroughAnalyst` | app/mcp/tools/__init__.py:243-253 | get_subscription_metrics is reachable through the analyst tier only |
| `ToolAccess.SmartRoutingInTwoTiers` | app/mcp/tools/__init__.py:243-263 | smart_payment_routing is reachable through exactly the analyst and ai_operator tiers |
| `ToolAccess.HealthAnalysisInTwoTiers` | app/mcp/tools/__init__.py:243-263 | analyze_subscription_health is reachable through exactly the analyst and ai_operator tiers |
| `ToolAccess.FraudDetectionInTwoTiers` | app/mcp/tools/__init__.py:256-274 | detect_fraud_patterns is reachable through exactly the ai_operator and operator tiers |
| `ToolAccess.TiersOverlap` | app/mcp/tools/__init__.py:243-274 | tier lists overlap: some tool is reachable through more than one tier |
| `ToolAccess.StatusOnlyThroughPublic` | app/mcp/tools/__init__.py:222-227 | get_payment_status is reachable through the public tier only |
| `ToolAccess.CreatePaymentOnlyThroughUser` | app/mcp/tools/__init__.py:230-240 | create_payment is reachable through the user tier only |
| `ToolAccess.PaymentMetricsOnlyThroughAnalyst` | app/mcp/tools/__init__.py:243-253 | get_payment_metrics is reachable through the analyst tier only |
| `ToolAccess.RoutingOptimizationOnlyThroughAiOperator` | app/mcp/tools/__init__.py:256-263 | optimize_payment_routing is reachable through the ai_operator tier only |
| `ToolAccess.CreateAlertOnlyThroughOperator` | app/mcp/tools/__init__.py:266-274 | create_alert is reachable through the operator tier only |
| `ToolAccess.EveryTierOwnsATool` | app/mcp/tools/__init__.py:220-284 | every tier has a tool that no other tier may use |
| `ToolAccess.TiersNotNested` | app/mcp/tools/__init__.py:220-284 | no tier's list is contained in another tier's list, so no tier inherits tools from another |
| `ToolAccess.AdminIsNotFullAccess` | app/mcp/tools/__init__.py:276-283 | the admin tier, commented "full access", lists five tools and may use neither get_payment_status nor create_payment |
| `ToolAccess.OptimizedSubscriptionInTwoCategories` | app/mcp/tools/__init__.py:122-146 | create_subscription_optimized is under exactly the subscriptions and ai_optimization categories |
| `ToolAccess.HealthAnalysisInTwoCategories` | app/mcp/tools/__init__.py:122-146 | analyze_subscription_health is under exactly the subscriptions and ai_optimization categories |
| `ToolAccess.CategoriesOverlap` | app/mcp/tools/__init__.py:128-145 | categories overlap, so "exactly one category per tool" is false |

## Left out

- Handler behaviour. The handlers `create_payment`, `transfer_funds` and the rest are imported from the sibling modules `payments`, `wallets`, `analytics`, `monitoring`, `compliance` and `subscriptions`. Those modules are not part of this model. A handler is only the pair (module, function name).
- `__all__` (app/mcp/tools/__init__.py:286-291) is Python export mechanics and has no behaviour.
- Database-migration bootstrapping (`alembic/env.py`) is I/O and foreign library calls.
- Dispatch, validation routines, error kinds, runtime changes to the catalogue and registry swapping are not in the source, which only declares data. The model adds only direct readings of the tables (`Allowed`, `TiersFor`, `CategoriesOf`).
- Concurrency, cancellation and timeouts are not modelled; the tables are immutable constants.
- Dict iteration order is modelled only through the written order of the displays. Python's insertion-ordered iteration is not modelled as an operation.
