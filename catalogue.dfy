/**
 The shape of a tool catalogue: a registry from tool names to handlers, a
 description per tool, and two tag-keyed tables of tool-name lists, one
 by category and one by permission tier. A tier may use exactly the tools in
 its own list; lists are read as ordered sets.
 */
module Catalogue {

  import opened DictLiteral

  /** Two lists have no element in common. */
  predicate Disjoint<T(==)>(a: seq<T>, b: seq<T>)
  {
    forall x :: x in a ==> x !in b
  }

  /** A list that shares no element with either of two lists shares none with their join. */
  lemma DisjointAppend<T>(a: seq<T>, b: seq<T>, c: seq<T>)
    requires Disjoint(a, c) && Disjoint(b, c)
    ensures Disjoint(a + b, c)
  {
  }

  /** Two lists without repeats and without a common element join into one without repeats. */
  lemma NoRepeatsAppend<T>(a: seq<T>, b: seq<T>)
    requires NoRepeats(a) && NoRepeats(b) && Disjoint(a, b)
    ensures NoRepeats(a + b)
  {
    forall i, j | 0 <= i < j < |a + b| ensures (a + b)[i] != (a + b)[j] {
      if j < |a| {
        assert (a + b)[i] == a[i] && (a + b)[j] == a[j];
      } else if i < |a| {
        assert (a + b)[i] == a[i] && (a + b)[j] == b[j - |a|];
        assert a[i] in a;
      } else {
        assert (a + b)[i] == b[i - |a|] && (a + b)[j] == b[j - |a|];
      }
    }
  }

  /** Every list of every tag names a registered tool: no dangling entry. */
  predicate Resolves<H>(registry: map<string, H>, lists: map<string, seq<string>>)
  {
    forall tag, name :: tag in lists && name in lists[tag] ==> name in registry
  }

  /** Every registered tool is in the list of some tag. */
  predicate Covers<H>(registry: map<string, H>, lists: map<string, seq<string>>)
  {
    forall name :: name in registry ==> exists tag :: tag in lists && name in lists[tag]
  }

  /** Every list of the table can be read as an ordered set. */
  predicate ListsAreSets(lists: map<string, seq<string>>)
  {
    forall tag :: tag in lists ==> NoRepeats(lists[tag])
  }

  /** Exactly the registered tools are described, each by a non-empty text. */
  predicate Described<H>(registry: map<string, H>, descriptions: map<string, string>)
  {
    && descriptions.Keys == registry.Keys
    && forall name :: name in descriptions ==> descriptions[name] != ""
  }

  /** A tag table agrees with the registry. */
  predicate Consistent<H>(registry: map<string, H>, lists: map<string, seq<string>>)
  {
    Resolves(registry, lists) && Covers(registry, lists) && ListsAreSets(lists)
  }

  /** The four tables of a catalogue agree with each other: every tool is described,
      categorised and reachable through some tier, and no list names an unknown tool. */
  predicate WellFormed<H>(registry: map<string, H>, descriptions: map<string, string>,
                          categories: map<string, seq<string>>, permissions: map<string, seq<string>>)
  {
    && Described(registry, descriptions)
    && Consistent(registry, categories)
    && Consistent(registry, permissions)
  }

  /** The tags whose list contains `name`. */
  function Containing(lists: map<string, seq<string>>, name: string): (tags: set<string>)
    ensures tags <= lists.Keys
  {
    set tag | tag in lists && name in lists[tag]
  }

  /** Every name in some list of the table. */
  function Listed(lists: map<string, seq<string>>): set<string>
  {
    set tag, name | tag in lists && name in lists[tag] :: name
  }

  /** A tier may use a tool exactly when the tool is in that tier's own list;
      a tag that is not a tier grants nothing. */
  function Allowed(permissions: map<string, seq<string>>, tier: string, name: string): bool
  {
    tier in permissions && name in permissions[tier]
  }

  /** The tiers that may use `name`: the inverse reading of the permission table. */
  function TiersFor(permissions: map<string, seq<string>>, name: string): set<string>
  {
    Containing(permissions, name)
  }

  /** The categories under which `name` is listed. */
  function CategoriesOf(categories: map<string, seq<string>>, name: string): set<string>
  {
    Containing(categories, name)
  }

  /** A consistent table lists exactly the registered tools. */
  lemma ListedIsRegistry<H>(registry: map<string, H>, lists: map<string, seq<string>>)
    requires Resolves(registry, lists) && Covers(registry, lists)
    ensures Listed(lists) == registry.Keys
  {
    forall name | name in registry ensures name in Listed(lists) {
      var tag :| tag in lists && name in lists[tag];
    }
  }

  /** In a consistent table a name is in some list if and only if it is registered. */
  lemma ContainingNonEmptyIff<H>(registry: map<string, H>, lists: map<string, seq<string>>, name: string)
    requires Resolves(registry, lists) && Covers(registry, lists)
    ensures Containing(lists, name) != {} <==> name in registry
  {
    if name in registry {
      var tag :| tag in lists && name in lists[tag];
      assert tag in Containing(lists, name);
    }
    if Containing(lists, name) != {} {
      var tag :| tag in Containing(lists, name);
      assert name in lists[tag];
    }
  }

  /** In a well-formed catalogue a tool is reachable through some tier exactly when it
      is registered, and is listed under some category exactly when it is registered. */
  lemma ReachableIffRegistered<H>(registry: map<string, H>, descriptions: map<string, string>,
                                  categories: map<string, seq<string>>, permissions: map<string, seq<string>>,
                                  name: string)
    requires WellFormed(registry, descriptions, categories, permissions)
    ensures TiersFor(permissions, name) != {} <==> name in registry
    ensures CategoriesOf(categories, name) != {} <==> name in registry
  {
    ContainingNonEmptyIff(registry, permissions, name);
    ContainingNonEmptyIff(registry, categories, name);
  }

  /** In a well-formed catalogue a tier's grant reaches only registered tools,
      and every registered tool is granted to some tier. */
  lemma AllowedIffRegistered<H>(registry: map<string, H>, descriptions: map<string, string>,
                                categories: map<string, seq<string>>, permissions: map<string, seq<string>>,
                                name: string)
    requires WellFormed(registry, descriptions, categories, permissions)
    ensures (exists tier :: Allowed(permissions, tier, name)) <==> name in registry
  {
    ReachableIffRegistered(registry, descriptions, categories, permissions, name);
    if name in registry {
      var tier :| tier in TiersFor(permissions, name);
      assert Allowed(permissions, tier, name);
    }
  }

  /** A tag that owns a name no other tag lists has a list contained in no other tag's list. */
  lemma ExclusiveNameBreaksNesting(lists: map<string, seq<string>>, tag: string, rival: string, name: string)
    requires Containing(lists, name) == {tag}
    requires rival in lists && rival != tag
    ensures name in lists[tag] && name !in lists[rival]
    ensures !(forall n :: n in lists[tag] ==> n in lists[rival])
  {
    assert tag in Containing(lists, name);
    assert rival !in Containing(lists, name);
  }

  /** The tags written in a table display whose written list holds `name`. */
  function WrittenContaining(entries: seq<(string, seq<string>)>, name: string): set<string>
  {
    set i | 0 <= i < |entries| && name in entries[i].1 :: entries[i].0
  }

  /** Read from a display without repeated tags, the tags whose list holds `name`
      in the evaluated table are exactly the written tags whose written list holds it. */
  lemma ContainingIsWritten(entries: seq<(string, seq<string>)>, name: string)
    requires DistinctKeys(entries)
    ensures Containing(DictOf(entries), name) == WrittenContaining(entries, name)
  {
    DistinctDisplay(entries);
    var m := DictOf(entries);
    forall tag | tag in Containing(m, name) ensures tag in WrittenContaining(entries, name) {
      assert tag in KeySet(entries);
      var i :| 0 <= i < |Keys(entries)| && Keys(entries)[i] == tag;
      assert m[entries[i].0] == entries[i].1;
    }
    forall tag | tag in WrittenContaining(entries, name) ensures tag in Containing(m, name) {
      var i :| 0 <= i < |entries| && name in entries[i].1 && entries[i].0 == tag;
      assert m[entries[i].0] == entries[i].1;
    }
  }

  /** The tiers that may use `name` are the tiers written with `name` in their list. */
  lemma TiersFromDisplay(entries: seq<(string, seq<string>)>, name: string)
    requires DistinctKeys(entries)
    ensures TiersFor(DictOf(entries), name) ==
      set i | 0 <= i < |entries| && name in entries[i].1 :: entries[i].0
  {
    ContainingIsWritten(entries, name);
  }

  /** The categories of `name` are the categories written with `name` in their list. */
  lemma CategoriesFromDisplay(entries: seq<(string, seq<string>)>, name: string)
    requires DistinctKeys(entries)
    ensures CategoriesOf(DictOf(entries), name) ==
      set i | 0 <= i < |entries| && name in entries[i].1 :: entries[i].0
  {
    ContainingIsWritten(entries, name);
  }

  /** Read from a display without repeated tags: the tags whose list holds `name` are
      exactly those given, when the written lists agree with them. */
  lemma ContainingFromDisplay(entries: seq<(string, seq<string>)>, name: string, tags: set<string>)
    requires DistinctKeys(entries)
    requires forall i :: 0 <= i < |entries| ==> (name in entries[i].1 <==> entries[i].0 in tags)
    requires forall tag :: tag in tags ==> tag in KeySet(entries)
    ensures Containing(DictOf(entries), name) == tags
  {
    ContainingIsWritten(entries, name);
    forall tag | tag in tags ensures tag in WrittenContaining(entries, name) {
      var i :| 0 <= i < |Keys(entries)| && Keys(entries)[i] == tag;
    }
  }

  /** Every name written in the lists of a table display, in the order written. */
  function Flatten(entries: seq<(string, seq<string>)>): seq<string>
    decreases |entries|
  {
    if entries == [] then [] else entries[0].1 + Flatten(entries[1..])
  }

  /** A name is in the flattened display exactly when some entry's list holds it. */
  lemma {:induction false} InFlatten(entries: seq<(string, seq<string>)>, name: string)
    ensures name in Flatten(entries) <==> exists i :: 0 <= i < |entries| && name in entries[i].1
    decreases |entries|
  {
    if entries != [] {
      InFlatten(entries[1..], name);
      if name in Flatten(entries[1..]) {
        var i :| 0 <= i < |entries[1..]| && name in entries[1..][i].1;
        assert entries[i + 1] == entries[1..][i];
      }
      if exists i :: 0 <= i < |entries| && name in entries[i].1 {
        var i :| 0 <= i < |entries| && name in entries[i].1;
        if i > 0 { assert entries[1..][i - 1] == entries[i]; }
      }
    }
  }

  /** A table display whose every written name is registered has no dangling entry. */
  lemma ResolvesFromDisplay<H>(registry: map<string, H>, entries: seq<(string, seq<string>)>)
    requires DistinctKeys(entries)
    requires forall name :: name in Flatten(entries) ==> name in registry
    ensures Resolves(registry, DictOf(entries))
  {
    DistinctDisplay(entries);
    forall tag, name | tag in DictOf(entries) && name in DictOf(entries)[tag] ensures name in registry {
      var i :| 0 <= i < |entries| && entries[i].0 == tag;
      InFlatten(entries, name);
    }
  }

  /** A table display that writes every registered name somewhere covers the registry. */
  lemma CoversFromDisplay<H>(registry: map<string, H>, entries: seq<(string, seq<string>)>)
    requires DistinctKeys(entries)
    requires forall name :: name in registry ==> name in Flatten(entries)
    ensures Covers(registry, DictOf(entries))
  {
    DistinctDisplay(entries);
    forall name | name in registry ensures exists tag :: tag in DictOf(entries) && name in DictOf(entries)[tag] {
      InFlatten(entries, name);
      var i :| 0 <= i < |entries| && name in entries[i].1;
      assert entries[i].0 in DictOf(entries);
    }
  }

  /** A table display whose written lists repeat no name has lists that read as sets. */
  lemma ListsAreSetsFromDisplay(entries: seq<(string, seq<string>)>)
    requires DistinctKeys(entries)
    requires forall i :: 0 <= i < |entries| ==> NoRepeats(entries[i].1)
    ensures ListsAreSets(DictOf(entries))
  {
    DistinctDisplay(entries);
    forall tag | tag in DictOf(entries) ensures NoRepeats(DictOf(entries)[tag]) {
      var i :| 0 <= i < |entries| && entries[i].0 == tag;
    }
  }
}
