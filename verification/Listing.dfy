/** ListObjectsV2: fetching, paging with continuation tokens, and delimiter grouping within a page. */
module Listing {
  import opened Basics

  // ---- Keys in byte order ----

  predicate Less(a: string, b: string) {
    b != "" && (a == "" || a[0] < b[0] || (a[0] == b[0] && Less(a[1..], b[1..])))
  }

  lemma {:induction false} LessTransitive(a: string, b: string, c: string)
    requires Less(a, b) && Less(b, c)
    ensures Less(a, c)
  {
    if a != "" && a[0] == b[0] == c[0] {
      LessTransitive(a[1..], b[1..], c[1..]);
    }
  }

  lemma {:induction false} LessIrreflexive(a: string)
    ensures !Less(a, a)
  {
    if a != "" {
      LessIrreflexive(a[1..]);
    }
  }

  ghost predicate Sorted(keys: seq<string>) {
    forall i, j :: 0 <= i < j < |keys| ==> Less(keys[i], keys[j])
  }

  // ---- Fetching ----

  /** An empty cursor means from the start. */
  predicate Wanted(key: string, prefix: string, cursor: string) {
    prefix <= key && (cursor == "" || Less(cursor, key))
  }

  /** The keys of the bucket that a request asks for, in order. */
  function Matching(keys: seq<string>, prefix: string, cursor: string): seq<string> {
    if keys == [] then [] else
      (if Wanted(keys[0], prefix, cursor) then [keys[0]] else []) + Matching(keys[1..], prefix, cursor)
  }

  function FirstOf(keys: seq<string>, limit: nat): seq<string> {
    if limit < |keys| then keys[..limit] else keys
  }

  /** How many rows the database is asked for. */
  function FetchLimit(maxKeys: nat, delimiter: string): nat {
    if delimiter == "" then maxKeys + 1
    else if 10 * maxKeys < 1000 then 1000
    else if 10 * maxKeys > 10000 then 10000
    else 10 * maxKeys
  }

  lemma {:induction false} MatchingSorted(keys: seq<string>, prefix: string, cursor: string)
    requires Sorted(keys)
    ensures Sorted(Matching(keys, prefix, cursor))
    ensures forall k :: k in Matching(keys, prefix, cursor) <==> k in keys && Wanted(k, prefix, cursor)
  {
    if keys != [] {
      MatchingSorted(keys[1..], prefix, cursor);
      assert keys == [keys[0]] + keys[1..];
      var rest := Matching(keys[1..], prefix, cursor);
      forall j | 0 <= j < |rest| ensures Less(keys[0], rest[j]) {
        assert rest[j] in keys[1..];
      }
    }
  }

  /** The keys after `from`, of keys in order. */
  lemma {:induction false} AfterIsSuffix(keys: seq<string>, prefix: string, i: nat)
    requires Sorted(keys) && i < |keys| && keys[i] != "" && forall k :: k in keys ==> prefix <= k
    ensures Matching(keys, prefix, keys[i]) == keys[i + 1..]
    decreases |keys|
  {
    var rest := keys[1..];
    assert keys == [keys[0]] + rest;
    if i == 0 {
      LessIrreflexive(keys[0]);
      forall k | k in rest ensures Wanted(k, prefix, keys[0]) {
        var j :| 0 <= j < |rest| && rest[j] == k;
        assert keys[j + 1] == k && k in keys;
      }
      AllAfter(rest, prefix, keys[0]);
    } else {
      if Less(keys[i], keys[0]) {
        LessTransitive(keys[0], keys[i], keys[0]);
        LessIrreflexive(keys[0]);
      }
      forall k | k in rest ensures prefix <= k {
        assert k in keys;
      }
      AfterIsSuffix(rest, prefix, i - 1);
      assert rest[i - 1] == keys[i] && rest[i..] == keys[i + 1..];
    }
  }

  lemma {:induction false} AllAfter(keys: seq<string>, prefix: string, cursor: string)
    requires forall k :: k in keys ==> Wanted(k, prefix, cursor)
    ensures Matching(keys, prefix, cursor) == keys
  {
    if keys != [] {
      AllAfter(keys[1..], prefix, cursor);
    }
  }

  /** Resuming later in the bucket is resuming later in what was already matched. */
  lemma {:induction false} MatchAgain(keys: seq<string>, prefix: string, cursor: string, later: string)
    requires later != "" && (cursor == "" || Less(cursor, later))
    ensures Matching(keys, prefix, later) == Matching(Matching(keys, prefix, cursor), prefix, later)
  {
    if keys != [] {
      MatchAgain(keys[1..], prefix, cursor, later);
      var rest := Matching(keys[1..], prefix, cursor);
      if Wanted(keys[0], prefix, cursor) {
        assert ([keys[0]] + rest)[1..] == rest;
      } else if Wanted(keys[0], prefix, later) {
        LessTransitive(cursor, later, keys[0]);
      } else {
        assert [] + rest == rest;
      }
    }
  }

  /** The continuation token names a matched key, and the next fetch is exactly what came after it. */
  lemma ResumeAfter(keys: seq<string>, prefix: string, cursor: string, i: nat)
    requires Sorted(keys) && "" !in keys && i < |Matching(keys, prefix, cursor)|
    ensures Matching(keys, prefix, Matching(keys, prefix, cursor)[i]) == Matching(keys, prefix, cursor)[i + 1..]
  {
    var m := Matching(keys, prefix, cursor);
    MatchingSorted(keys, prefix, cursor);
    assert m[i] in m;
    MatchAgain(keys, prefix, cursor, m[i]);
    AfterIsSuffix(m, prefix, i);
  }

  // ---- Pages without a delimiter ----

  datatype Page = Page(contents: seq<string>, truncated: bool, lastKey: string)

  function FlatPage(entries: seq<string>, maxKeys: nat): Page {
    if |entries| > maxKeys then Page(entries[..maxKeys], true, if maxKeys > 0 then entries[maxKeys - 1] else "")
    else Page(entries, false, if entries != [] then entries[|entries| - 1] else "")
  }

  /** NextContinuationToken is sent only with a truncated page whose last key is known. */
  function Token(p: Page): Option<string> {
    if p.truncated && p.lastKey != "" then Some(p.lastKey) else None
  }

  /** One row more than the page holds is enough: the database page is the page of the full driver listing. */
  lemma BatchGivesSamePage(entries: seq<string>, maxKeys: nat)
    ensures FlatPage(FirstOf(entries, FetchLimit(maxKeys, "")), maxKeys) == FlatPage(entries, maxKeys)
  {
    if maxKeys + 1 < |entries| {
      assert entries[..maxKeys + 1][..maxKeys] == entries[..maxKeys];
    }
  }

  /** A truncated page can be continued if and only if max-keys is not zero. */
  lemma TruncatedPageHasToken(keys: seq<string>, prefix: string, cursor: string, maxKeys: nat)
    requires Sorted(keys) && "" !in keys && FlatPage(Matching(keys, prefix, cursor), maxKeys).truncated
    ensures Token(FlatPage(Matching(keys, prefix, cursor), maxKeys)).Some? <==> maxKeys > 0
  {
    MatchingSorted(keys, prefix, cursor);
    if maxKeys > 0 {
      assert Matching(keys, prefix, cursor)[maxKeys - 1] in Matching(keys, prefix, cursor);
    }
  }

  /** What a client collects by following tokens until a page brings none. */
  ghost function AllPages(keys: seq<string>, prefix: string, cursor: string, maxKeys: nat): seq<string>
    requires Sorted(keys) && "" !in keys && maxKeys > 0
    decreases |Matching(keys, prefix, cursor)|
  {
    var page := FlatPage(FirstOf(Matching(keys, prefix, cursor), FetchLimit(maxKeys, "")), maxKeys);
    BatchGivesSamePage(Matching(keys, prefix, cursor), maxKeys);
    if Token(page).None? then page.contents else
      ResumeAfter(keys, prefix, cursor, maxKeys - 1);
      page.contents + AllPages(keys, prefix, Token(page).value, maxKeys)
  }

  /** Following tokens ends, and yields every matching key exactly once, in order. */
  lemma {:induction false} PagesAreComplete(keys: seq<string>, prefix: string, cursor: string, maxKeys: nat)
    requires Sorted(keys) && "" !in keys && maxKeys > 0
    ensures AllPages(keys, prefix, cursor, maxKeys) == Matching(keys, prefix, cursor)
    decreases |Matching(keys, prefix, cursor)|
  {
    var m := Matching(keys, prefix, cursor);
    BatchGivesSamePage(m, maxKeys);
    if |m| > maxKeys {
      TruncatedPageHasToken(keys, prefix, cursor, maxKeys);
      ResumeAfter(keys, prefix, cursor, maxKeys - 1);
      var token := m[maxKeys - 1];
      PagesAreComplete(keys, prefix, token, maxKeys);
      assert AllPages(keys, prefix, cursor, maxKeys) == m[..maxKeys] + AllPages(keys, prefix, token, maxKeys);
      assert m == m[..maxKeys] + m[maxKeys..];
    }
  }
}
