/** Delimiter grouping: one page of contents and common prefixes, and what happens where it is cut. */
module Grouping {
  import opened Basics
  import opened Listing

  predicate OccursAt(s: string, sub: string, i: int) {
    0 <= i && i + |sub| <= |s| && s[i..i + |sub|] == sub
  }

  /** strings.Index from position `from` on. */
  function IndexFrom(s: string, sub: string, from: nat): (i: int)
    ensures i >= 0 ==> from <= i && OccursAt(s, sub, i)
    ensures forall j :: from <= j && (i < 0 || j < i) ==> !OccursAt(s, sub, j)
    decreases |s| - from
  {
    if from + |sub| > |s| then -1
    else if s[from..from + |sub|] == sub then from
    else IndexFrom(s, sub, from + 1)
  }

  /** The common prefix a key rolls up into, if the delimiter occurs in it after the prefix. */
  function Group(key: string, prefix: string, delimiter: string): (g: Option<string>)
    requires prefix <= key
    ensures g.Some? ==> prefix <= g.value <= key && |prefix| + |delimiter| <= |g.value|
  {
    var idx := IndexFrom(key[|prefix|..], delimiter, 0);
    if idx < 0 then None else Some(prefix + key[|prefix|..][..idx + |delimiter|])
  }

  /** How a key shows up in a listing. */
  datatype Item = Content(key: string) | Common(prefix: string)

  function ItemOf(key: string, prefix: string, delimiter: string): Item
    requires prefix <= key
  {
    var g := Group(key, prefix, delimiter);
    if g.Some? then Common(g.value) else Content(key)
  }

  predicate Under(entries: seq<string>, prefix: string) {
    forall i :: 0 <= i < |entries| ==> prefix <= entries[i]
  }

  function Contents(entries: seq<string>, prefix: string, delimiter: string): seq<string>
    requires Under(entries, prefix)
  {
    if entries == [] then [] else
      var last := entries[|entries| - 1];
      Contents(entries[..|entries| - 1], prefix, delimiter)
      + if Group(last, prefix, delimiter).Some? then [] else [last]
  }

  /** Each group once, in order of first appearance. */
  function Prefixes(entries: seq<string>, prefix: string, delimiter: string): seq<string>
    requires Under(entries, prefix)
  {
    if entries == [] then [] else
      var last := entries[|entries| - 1];
      var before := Prefixes(entries[..|entries| - 1], prefix, delimiter);
      var g := Group(last, prefix, delimiter);
      before + if g.Some? && g.value !in before then [g.value] else []
  }

  function ItemCount(entries: seq<string>, prefix: string, delimiter: string): nat
    requires Under(entries, prefix)
  {
    |Contents(entries, prefix, delimiter)| + |Prefixes(entries, prefix, delimiter)|
  }

  /** Some entry in the list shows up as this item. */
  predicate Represented(item: Item, entries: seq<string>, prefix: string, delimiter: string)
    requires Under(entries, prefix)
  {
    exists i :: 0 <= i < |entries| && ItemOf(entries[i], prefix, delimiter) == item
  }

  lemma RepresentedSnoc(item: Item, entries: seq<string>, prefix: string, delimiter: string)
    requires Under(entries, prefix) && entries != []
    ensures Represented(item, entries, prefix, delimiter) <==> (
      || Represented(item, entries[..|entries| - 1], prefix, delimiter)
      || ItemOf(entries[|entries| - 1], prefix, delimiter) == item)
  {
    var init := entries[..|entries| - 1];
    if i :| 0 <= i < |entries| && ItemOf(entries[i], prefix, delimiter) == item {
      assert i < |init| ==> ItemOf(init[i], prefix, delimiter) == item;
    }
    if i :| 0 <= i < |init| && ItemOf(init[i], prefix, delimiter) == item {
      assert ItemOf(entries[i], prefix, delimiter) == item;
    }
  }

  lemma {:induction false} ListsRepresent(entries: seq<string>, prefix: string, delimiter: string, item: Item)
    requires Under(entries, prefix)
    ensures Represented(item, entries, prefix, delimiter)
       <==> (if item.Content? then item.key in Contents(entries, prefix, delimiter)
             else item.prefix in Prefixes(entries, prefix, delimiter))
  {
    if entries != [] {
      RepresentedSnoc(item, entries, prefix, delimiter);
      ListsRepresent(entries[..|entries| - 1], prefix, delimiter, item);
    }
  }

  datatype Listed = Listed(contents: seq<string>, prefixes: seq<string>, truncated: bool, lastKey: string)

  /**
   The page holds exactly the first `shown` entries: all of them, or as many as fill max-keys and then a key
   that would need one more item. That key becomes `lastKey`.
   */
  predicate IsPage(entries: seq<string>, prefix: string, delimiter: string, maxKeys: nat, page: Listed, shown: nat)
    requires Under(entries, prefix)
  {
    && shown <= |entries|
    && page.contents == Contents(entries[..shown], prefix, delimiter)
    && page.prefixes == Prefixes(entries[..shown], prefix, delimiter)
    && |page.contents| + |page.prefixes| <= maxKeys
    && (page.truncated <==> shown < |entries|)
    && (page.truncated ==>
      && |page.contents| + |page.prefixes| == maxKeys && page.lastKey == entries[shown]
      && (Group(entries[shown], prefix, delimiter).Some? ==> Group(entries[shown], prefix, delimiter).value !in page.prefixes))
    && (!page.truncated && entries != [] ==> page.lastKey == entries[|entries| - 1])
    && (entries == [] ==> page.lastKey == "")
  }

  lemma OneMoreKey(entries: seq<string>, i: nat, prefix: string, delimiter: string)
    requires Under(entries, prefix) && i < |entries|
    ensures Contents(entries[..i + 1], prefix, delimiter) == Contents(entries[..i], prefix, delimiter)
      + if Group(entries[i], prefix, delimiter).Some? then [] else [entries[i]]
    ensures Prefixes(entries[..i + 1], prefix, delimiter) == Prefixes(entries[..i], prefix, delimiter)
      + var g := Group(entries[i], prefix, delimiter);
        if g.Some? && g.value !in Prefixes(entries[..i], prefix, delimiter) then [g.value] else []
  {
    assert entries[..i + 1][..i] == entries[..i];
  }

  method ProcessListEntries(entries: seq<string>, prefix: string, delimiter: string, maxKeys: nat)
    returns (page: Listed)
    requires Under(entries, prefix)
    ensures exists shown :: IsPage(entries, prefix, delimiter, maxKeys, page, shown)
  {
    var contents, prefixes, seen, lastKey, count := [], [], {}, "", 0;
    for i := 0 to |entries|
      invariant contents == Contents(entries[..i], prefix, delimiter)
      invariant prefixes == Prefixes(entries[..i], prefix, delimiter)
      invariant forall cp :: cp in seen <==> cp in prefixes
      invariant count == |contents| + |prefixes| <= maxKeys
      invariant i > 0 ==> lastKey == entries[i - 1]
      invariant i == 0 ==> lastKey == ""
    {
      var key := entries[i];
      lastKey := key;
      OneMoreKey(entries, i, prefix, delimiter);
      var afterPrefix := key[|prefix|..];
      var idx := IndexFrom(afterPrefix, delimiter, 0);
      if idx >= 0 {
        var cp := prefix + afterPrefix[..idx + |delimiter|];
        if cp !in seen {
          if count >= maxKeys {
            page := Listed(contents, prefixes, true, lastKey);
            assert IsPage(entries, prefix, delimiter, maxKeys, page, i);
            return;
          }
          seen := seen + {cp};
          prefixes := prefixes + [cp];
          count := count + 1;
        }
      } else {
        if count >= maxKeys {
          page := Listed(contents, prefixes, true, lastKey);
          assert IsPage(entries, prefix, delimiter, maxKeys, page, i);
          return;
        }
        contents := contents + [key];
        count := count + 1;
      }
    }
    assert entries[..|entries|] == entries;
    page := Listed(contents, prefixes, false, lastKey);
    assert IsPage(entries, prefix, delimiter, maxKeys, page, |entries|);
  }

  // ---- Order ----

  lemma {:induction false} LessOfPrefixes(a: string, b: string, x: string, y: string)
    requires Less(x, y) && a <= x && b <= y && !(a <= b) && !(b <= a)
    ensures Less(a, b)
  {
    if a[0] == b[0] {
      assert a == [a[0]] + a[1..] && b == [b[0]] + b[1..];
      LessOfPrefixes(a[1..], b[1..], x[1..], y[1..]);
    }
  }

  /** A group ends with the first delimiter after the prefix, so no group is a proper prefix of another. */
  lemma GroupsDoNotNest(x: string, y: string, prefix: string, delimiter: string)
    requires prefix <= x && prefix <= y && delimiter != ""
    requires Group(x, prefix, delimiter).Some? && Group(x, prefix, delimiter).value <= y
    ensures Group(y, prefix, delimiter).Some?
    ensures |Group(y, prefix, delimiter).value| <= |Group(x, prefix, delimiter).value|
  {
    var xs, ys := x[|prefix|..], y[|prefix|..];
    var i := IndexFrom(xs, delimiter, 0);
    var g := Group(x, prefix, delimiter).value;
    assert g == prefix + xs[..i + |delimiter|];
    assert ys[..i + |delimiter|] == g[|prefix|..] == xs[..i + |delimiter|];
    assert ys[i..i + |delimiter|] == ys[..i + |delimiter|][i..] == xs[..i + |delimiter|][i..] == xs[i..i + |delimiter|];
    assert OccursAt(ys, delimiter, i);
  }

  lemma NestedGroupsAgree(x: string, y: string, prefix: string, delimiter: string)
    requires prefix <= x && prefix <= y && delimiter != ""
    requires Group(x, prefix, delimiter).Some? && Group(y, prefix, delimiter).Some?
    requires Group(x, prefix, delimiter).value <= Group(y, prefix, delimiter).value
    ensures Group(x, prefix, delimiter) == Group(y, prefix, delimiter)
  {
    var a, b := Group(x, prefix, delimiter).value, Group(y, prefix, delimiter).value;
    assert a == b[..|a|] == y[..|a|];
    GroupsDoNotNest(x, y, prefix, delimiter);
    assert a == b;
  }

  /** Different groups come in the order of their keys. */
  lemma GroupsAscend(x: string, y: string, prefix: string, delimiter: string)
    requires prefix <= x && prefix <= y && delimiter != "" && Less(x, y)
    requires Group(x, prefix, delimiter).Some? && Group(y, prefix, delimiter).Some?
    requires Group(x, prefix, delimiter) != Group(y, prefix, delimiter)
    ensures Less(Group(x, prefix, delimiter).value, Group(y, prefix, delimiter).value)
  {
    var a, b := Group(x, prefix, delimiter).value, Group(y, prefix, delimiter).value;
    if a <= b {
      NestedGroupsAgree(x, y, prefix, delimiter);
    } else if b <= a {
      NestedGroupsAgree(y, x, prefix, delimiter);
    } else {
      LessOfPrefixes(a, b, x, y);
    }
  }

  /** Keys between two keys of one group are in that group too. */
  lemma GroupsAreContiguous(x: string, y: string, z: string, prefix: string, delimiter: string)
    requires prefix <= x && prefix <= y && prefix <= z && delimiter != "" && Less(x, y) && Less(y, z)
    requires Group(x, prefix, delimiter).Some? && Group(x, prefix, delimiter) == Group(z, prefix, delimiter)
    ensures Group(y, prefix, delimiter) == Group(x, prefix, delimiter)
  {
    var g := Group(x, prefix, delimiter).value;
    BetweenPrefixes(g, x, y, z);
    GroupsDoNotNest(x, y, prefix, delimiter);
    var h := Group(y, prefix, delimiter).value;
    assert h <= x by {
      assert h == y[..|h|] && g == y[..|g|];
    }
    GroupsDoNotNest(y, x, prefix, delimiter);
  }

  lemma {:induction false} BetweenPrefixes(g: string, x: string, y: string, z: string)
    requires g <= x && g <= z && Less(x, y) && Less(y, z)
    ensures g <= y
  {
    if g != "" {
      BetweenPrefixes(g[1..], x[1..], y[1..], z[1..]);
      assert g == [g[0]] + g[1..] && y == [y[0]] + y[1..];
    }
  }

  /** On keys in order the common prefixes are strictly ascending, hence without duplicates. */
  lemma {:induction false} PrefixesAscend(entries: seq<string>, prefix: string, delimiter: string)
    requires Under(entries, prefix) && Sorted(entries) && delimiter != ""
    ensures Sorted(Prefixes(entries, prefix, delimiter))
  {
    if entries != [] {
      var n := |entries| - 1;
      PrefixesAscend(entries[..n], prefix, delimiter);
      var before, g := Prefixes(entries[..n], prefix, delimiter), Group(entries[n], prefix, delimiter);
      if g.Some? && g.value !in before {
        forall j | 0 <= j < |before| ensures Less(before[j], g.value) {
          ListsRepresent(entries[..n], prefix, delimiter, Common(before[j]));
          var i :| 0 <= i < n && ItemOf(entries[..n][i], prefix, delimiter) == Common(before[j]);
          GroupsAscend(entries[i], entries[n], prefix, delimiter);
        }
      }
    }
  }

  // ---- Where the page is cut ----

  /** Two keys in order show up as one item only if they are in one group, and then so is all between them. */
  lemma SameItemSameGroup(m: seq<string>, i: nat, k: nat, j: nat, prefix: string, delimiter: string)
    requires Under(m, prefix) && Sorted(m) && delimiter != "" && i <= k <= j < |m| && i < j
    requires ItemOf(m[i], prefix, delimiter) == ItemOf(m[j], prefix, delimiter)
    ensures ItemOf(m[i], prefix, delimiter).Common? && ItemOf(m[k], prefix, delimiter) == ItemOf(m[i], prefix, delimiter)
  {
    if Group(m[i], prefix, delimiter).None? {
      assert Less(m[i], m[j]);
      LessIrreflexive(m[i]);
    } else if i < k < j {
      GroupsAreContiguous(m[i], m[k], m[j], prefix, delimiter);
    }
  }

  /** An item on the page does not show up behind the cut. */
  lemma NothingTwice(m: seq<string>, prefix: string, delimiter: string, maxKeys: nat, page: Listed, shown: nat, i: nat, j: nat)
    requires Under(m, prefix) && Sorted(m) && delimiter != "" && i < shown < j < |m|
    requires IsPage(m, prefix, delimiter, maxKeys, page, shown)
    ensures ItemOf(m[i], prefix, delimiter) != ItemOf(m[j], prefix, delimiter)
  {
    if ItemOf(m[i], prefix, delimiter) == ItemOf(m[j], prefix, delimiter) {
      SameItemSameGroup(m, i, shown, j, prefix, delimiter);
      assert ItemOf(m[..shown][i], prefix, delimiter) == ItemOf(m[shown], prefix, delimiter);
      ListsRepresent(m[..shown], prefix, delimiter, ItemOf(m[shown], prefix, delimiter));
    }
  }

  /** A key's item shows up again further on if and only if it is the item of the very next key. */
  lemma AgainIffNext(m: seq<string>, prefix: string, delimiter: string, k: nat)
    requires Under(m, prefix) && Sorted(m) && delimiter != "" && k < |m|
    ensures Under(m[k + 1..], prefix)
    ensures Represented(ItemOf(m[k], prefix, delimiter), m[k + 1..], prefix, delimiter)
       <==> k + 1 < |m| && ItemOf(m[k + 1], prefix, delimiter) == ItemOf(m[k], prefix, delimiter)
  {
    var rest := m[k + 1..];
    if j :| 0 <= j < |rest| && ItemOf(rest[j], prefix, delimiter) == ItemOf(m[k], prefix, delimiter) {
      SameItemSameGroup(m, k, k + 1, k + 1 + j, prefix, delimiter);
    }
    if rest != [] {
      assert rest[0] == m[k + 1];
    }
  }

  /**
   The token of a cut page names the first key that is not shown, and the next page starts strictly after it.
   No item is listed twice, but the key at the cut is skipped: it is still represented later if and only if the
   very next key rolls up into the same group.
   */
  lemma KeyAtCut(keys: seq<string>, prefix: string, cursor: string, delimiter: string, maxKeys: nat, page: Listed, shown: nat)
    requires Sorted(keys) && "" !in keys && delimiter != ""
    requires var m := Matching(keys, prefix, cursor);
      Under(m, prefix) && IsPage(m, prefix, delimiter, maxKeys, page, shown) && page.truncated
    ensures var m := Matching(keys, prefix, cursor);
      && Under(m[shown + 1..], prefix)
      && Matching(keys, prefix, page.lastKey) == m[shown + 1..]
      && (forall i, j :: 0 <= i < shown < j < |m| ==> ItemOf(m[i], prefix, delimiter) != ItemOf(m[j], prefix, delimiter))
      && (Represented(ItemOf(m[shown], prefix, delimiter), m[shown + 1..], prefix, delimiter) <==>
          shown + 1 < |m| && ItemOf(m[shown + 1], prefix, delimiter) == ItemOf(m[shown], prefix, delimiter))
  {
    var m := Matching(keys, prefix, cursor);
    MatchingSorted(keys, prefix, cursor);
    ResumeAfter(keys, prefix, cursor, shown);
    AgainIffNext(m, prefix, delimiter, shown);
    forall i, j | 0 <= i < shown < j < |m| ensures ItemOf(m[i], prefix, delimiter) != ItemOf(m[j], prefix, delimiter) {
      NothingTwice(m, prefix, delimiter, maxKeys, page, shown, i, j);
    }
  }

  lemma NoSlashNoGroup(key: string)
    requires |key| == 1 && key[0] != '/'
    ensures Group(key, "", "/") == None
  {
    assert key[0..] == key && key[0..1] == key && "/"[0] == '/';
  }

  lemma OneContent(key: string, prefix: string, delimiter: string)
    requires prefix <= key && Group(key, prefix, delimiter) == None
    ensures Contents([key], prefix, delimiter) == [key] && Prefixes([key], prefix, delimiter) == []
  {
    assert [key][..0] == [];
  }

  /** Three plain keys, one to a page: the second is at the cut, and the next page starts with the third. */
  lemma MiddleIsSkipped(x: string, y: string, z: string, delimiter: string)
    requires x != "" && Less(x, y) && Less(y, z)
    requires forall k :: k in [x, y, z] ==> Group(k, "", delimiter) == None
    ensures Sorted([x, y, z]) && Matching([x, y, z], "", "") == [x, y, z]
    ensures IsPage([x, y, z], "", delimiter, 1, Listed([x], [], true, y), 1)
    ensures Matching([x, y, z], "", y) == [z]
  {
    var keys := [x, y, z];
    LessTransitive(x, y, z);
    AllAfter(keys, "", "");
    assert x in keys && y in keys && keys[..1] == [x];
    OneContent(x, "", delimiter);
    ResumeAfter(keys, "", "", 1);
  }

  /** Three keys, one per page: the second never shows up. */
  lemma SecondKeyIsSkipped()
    ensures Sorted(["a", "b", "c"]) && Matching(["a", "b", "c"], "", "") == ["a", "b", "c"]
    ensures IsPage(["a", "b", "c"], "", "/", 1, Listed(["a"], [], true, "b"), 1)
    ensures Matching(["a", "b", "c"], "", "b") == ["c"]
  {
    NoSlashNoGroup("a");
    NoSlashNoGroup("b");
    NoSlashNoGroup("c");
    MiddleIsSkipped("a", "b", "c", "/");
  }

  // ---- The fetch limit ----

  lemma {:induction false} CountGrows(entries: seq<string>, n: nat, prefix: string, delimiter: string)
    requires Under(entries, prefix) && n <= |entries|
    ensures ItemCount(entries[..n], prefix, delimiter) <= ItemCount(entries, prefix, delimiter)
  {
    if n < |entries| {
      CountGrows(entries[..|entries| - 1], n, prefix, delimiter);
      assert entries[..|entries| - 1][..n] == entries[..n];
    } else {
      assert entries[..n] == entries;
    }
  }

  /** A page is reported truncated if and only if the rows that were fetched need more than max-keys items. */
  lemma TruncatedIffTooMany(entries: seq<string>, prefix: string, delimiter: string, maxKeys: nat, page: Listed, shown: nat)
    requires Under(entries, prefix) && IsPage(entries, prefix, delimiter, maxKeys, page, shown)
    ensures page.truncated <==> ItemCount(entries, prefix, delimiter) > maxKeys
  {
    if shown < |entries| {
      assert entries[..shown + 1][..shown] == entries[..shown];
      CountGrows(entries, shown + 1, prefix, delimiter);
    } else {
      assert entries[..shown] == entries;
    }
  }

  lemma LastStandsForRest(m: seq<string>, limit: nat, prefix: string, delimiter: string, i: nat)
    requires Under(m, prefix) && Sorted(m) && delimiter != "" && 0 < limit < |m| && Under(m[..limit], prefix)
    requires ItemOf(m[|m| - 1], prefix, delimiter) == ItemOf(m[limit - 1], prefix, delimiter) && i < |m|
    ensures Represented(ItemOf(m[i], prefix, delimiter), m[..limit], prefix, delimiter)
  {
    var k := if i < limit then i else limit - 1;
    if i > k {
      SameItemSameGroup(m, limit - 1, i, |m| - 1, prefix, delimiter);
    }
    assert ItemOf(m[..limit][k], prefix, delimiter) == ItemOf(m[i], prefix, delimiter);
  }

  /** The first `limit` rows stand for all rows if and only if the last row has the item of the last of them. */
  lemma FirstRowsStandForAll(m: seq<string>, limit: nat, prefix: string, delimiter: string)
    requires Under(m, prefix) && Sorted(m) && delimiter != "" && 0 < limit < |m| && Under(m[..limit], prefix)
    ensures (forall i :: 0 <= i < |m| ==> Represented(ItemOf(m[i], prefix, delimiter), m[..limit], prefix, delimiter))
       <==> ItemOf(m[|m| - 1], prefix, delimiter) == ItemOf(m[limit - 1], prefix, delimiter)
  {
    if ItemOf(m[|m| - 1], prefix, delimiter) == ItemOf(m[limit - 1], prefix, delimiter) {
      forall i | 0 <= i < |m| ensures Represented(ItemOf(m[i], prefix, delimiter), m[..limit], prefix, delimiter) {
        LastStandsForRest(m, limit, prefix, delimiter, i);
      }
    } else {
      if i :| 0 <= i < limit && ItemOf(m[..limit][i], prefix, delimiter) == ItemOf(m[|m| - 1], prefix, delimiter) {
        SameItemSameGroup(m, i, limit - 1, |m| - 1, prefix, delimiter);
      }
      assert !Represented(ItemOf(m[|m| - 1], prefix, delimiter), m[..limit], prefix, delimiter);
    }
  }

  /**
   When the rows that were fetched fit on the page, it is reported complete even if there are more rows. That is
   right if and only if the last row of all rolls up into the same group as the last one fetched.
   */
  lemma CompleteDespiteLimit(m: seq<string>, limit: nat, prefix: string, delimiter: string, maxKeys: nat, page: Listed, shown: nat)
    requires Under(m, prefix) && Sorted(m) && delimiter != "" && 0 < limit < |m| && Under(FirstOf(m, limit), prefix)
    requires IsPage(FirstOf(m, limit), prefix, delimiter, maxKeys, page, shown)
    ensures page.truncated <==> ItemCount(m[..limit], prefix, delimiter) > maxKeys
    ensures (forall i :: 0 <= i < |m| ==> Represented(ItemOf(m[i], prefix, delimiter), m[..limit], prefix, delimiter))
       <==> ItemOf(m[|m| - 1], prefix, delimiter) == ItemOf(m[limit - 1], prefix, delimiter)
  {
    TruncatedIffTooMany(m[..limit], prefix, delimiter, maxKeys, page, shown);
    FirstRowsStandForAll(m, limit, prefix, delimiter);
  }
}
