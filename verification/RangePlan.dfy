/** Range headers, and the byte plan a chunked GET builds from one. */
module RangePlan {
  import opened Basics

  /** The hash is injective: a digest is as good as what it was taken of. */
  datatype Digest = Digest(of: Bytes)

  // ---- The header ----

  const MAX_INT64: int := 0x7fff_ffff_ffff_ffff

  datatype Range = Range(start: int, end: int) {
    function Length(): int {
      end - start + 1
    }
  }

  predicate IsDigit(c: char) {
    '0' <= c <= '9'
  }

  predicate AllDigits(s: string) {
    forall i :: 0 <= i < |s| ==> IsDigit(s[i])
  }

  function Value(digits: string): nat
    requires AllDigits(digits)
  {
    if digits == "" then 0 else
      10 * Value(digits[..|digits| - 1]) + (digits[|digits| - 1] as int - '0' as int)
  }

  /** strconv.ParseInt in base 10: an optional sign, at least one digit, and the value fits 64 bits. */
  function ParseInt(s: string): Option<int> {
    var signed := s != "" && (s[0] == '-' || s[0] == '+');
    var digits := if signed then s[1..] else s;
    if digits == "" || !AllDigits(digits) then None else
      var magnitude: int := Value(digits);
      var value := if signed && s[0] == '-' then -magnitude else magnitude;
      if -MAX_INT64 - 1 <= value <= MAX_INT64 then Some(value) else None
  }

  function IndexOf(s: string, c: char): (i: nat)
    ensures i <= |s| && (i < |s| ==> s[i] == c) && c !in s[..i]
  {
    if s == "" then 0 else if s[0] == c then 0 else
      var i := IndexOf(s[1..], c);
      assert s[..i + 1] == [s[0]] + s[1..][..i];
      i + 1
  }

  /** The bounds as written, before they are held against the object's size. */
  function Bounds(spec: string, size: int): Option<Range> {
    var dash := IndexOf(spec, '-');
    if dash == |spec| then None else
      var first, last := spec[..dash], spec[dash + 1..];
      if first == "" then
        var suffix := ParseInt(last);
        if suffix.None? || suffix.value <= 0 then None
        else Some(Range(if size - suffix.value < 0 then 0 else size - suffix.value, size - 1))
      else
        var start, end := ParseInt(first), if last == "" then Some(size - 1) else ParseInt(last);
        if start.None? || end.None? then None else Some(Range(start.value, end.value))
  }

  const PREFIX: string := "bytes="

  function ParseRange(header: string, size: int): Option<Range> {
    if !(PREFIX <= header) || ',' in header[|PREFIX|..] then None else
      var bounds := Bounds(header[|PREFIX|..], size);
      if bounds.None? then None else
        var start := bounds.value.start;
        var end := if bounds.value.end >= size then size - 1 else bounds.value.end;
        if start > end || start >= size then None else Some(Range(start, end))
  }

  lemma NoSignInDigits(s: string)
    requires s != "" && AllDigits(s)
    ensures ParseInt(s) == if Value(s) <= MAX_INT64 then Some(Value(s)) else None
  {
    assert IsDigit(s[0]);
  }

  lemma DashAfterDigits(a: string, b: string)
    requires AllDigits(a) && AllDigits(b)
    ensures IndexOf(a + "-" + b, '-') == |a| && ',' !in a + "-" + b
    ensures (a + "-" + b)[..|a|] == a && (a + "-" + b)[|a| + 1..] == b
  {
    var s := a + "-" + b;
    FirstAt(s, '-', |a|);
    forall k | 0 <= k < |s| ensures s[k] != ',' {
      if k < |a| {
        assert s[k] == a[k];
      } else if k > |a| {
        assert s[k] == b[k - |a| - 1];
      }
    }
  }

  lemma {:induction false} FirstAt(s: string, c: char, k: nat)
    requires k < |s| && s[k] == c && forall i :: 0 <= i < k ==> s[i] != c
    ensures IndexOf(s, c) == k
  {
    if k > 0 {
      FirstAt(s[1..], c, k - 1);
    }
  }

  /** The satisfiable ranges of section 14.1.2 of RFC 9110, clamped to the object. */
  function Satisfy(start: int, end: int, size: int): Option<Range> {
    if start <= end && start < size then Some(Range(start, if end < size then end else size - 1)) else None
  }

  lemma ClosedBounds(a: string, b: string, size: nat)
    requires a != "" && b != "" && AllDigits(a) && AllDigits(b)
    ensures Bounds(a + "-" + b, size)
         == if Value(a) > MAX_INT64 || Value(b) > MAX_INT64 then None else Some(Range(Value(a), Value(b)))
  {
    DashAfterDigits(a, b);
    NoSignInDigits(a);
    NoSignInDigits(b);
  }

  /** first-pos "-" last-pos. Positions that do not fit 64 bits are refused instead of clamped. */
  lemma ClosedRange(a: string, b: string, size: nat)
    requires a != "" && b != "" && AllDigits(a) && AllDigits(b)
    ensures ParseRange(PREFIX + (a + "-" + b), size)
         == if Value(a) > MAX_INT64 || Value(b) > MAX_INT64 then None else Satisfy(Value(a), Value(b), size)
  {
    DashAfterDigits(a, b);
    ClosedBounds(a, b, size);
    assert (PREFIX + (a + "-" + b))[|PREFIX|..] == a + "-" + b;
  }

  lemma OpenBounds(a: string, size: nat)
    requires a != "" && AllDigits(a)
    ensures Bounds(a + "-", size) == if Value(a) > MAX_INT64 then None else Some(Range(Value(a), size - 1))
  {
    DashAfterDigits(a, "");
    NoSignInDigits(a);
    assert a + "-" + "" == a + "-";
  }

  /** first-pos "-": everything from there on. */
  lemma OpenRange(a: string, size: nat)
    requires a != "" && AllDigits(a)
    ensures ParseRange(PREFIX + (a + "-"), size)
         == if Value(a) > MAX_INT64 then None else Satisfy(Value(a), size - 1, size)
  {
    DashAfterDigits(a, "");
    assert a + "-" + "" == a + "-";
    OpenBounds(a, size);
    assert (PREFIX + (a + "-"))[|PREFIX|..] == a + "-";
  }

  lemma SuffixBounds(b: string, size: nat)
    requires b != "" && AllDigits(b)
    ensures Bounds("-" + b, size)
         == if Value(b) > MAX_INT64 || Value(b) == 0 then None
            else Some(Range(if Value(b) < size then size - Value(b) else 0, size - 1))
  {
    DashAfterDigits("", b);
    NoSignInDigits(b);
    assert "" + "-" + b == "-" + b;
  }

  /** "-" suffix-length: the last so many bytes, or the whole object if it is shorter. */
  lemma SuffixRange(b: string, size: nat)
    requires b != "" && AllDigits(b)
    ensures ParseRange(PREFIX + ("-" + b), size)
         == if Value(b) > MAX_INT64 || Value(b) == 0 || size == 0 then None
            else Some(Range(if Value(b) < size then size - Value(b) else 0, size - 1))
  {
    DashAfterDigits("", b);
    assert "" + "-" + b == "-" + b;
    SuffixBounds(b, size);
    assert (PREFIX + ("-" + b))[|PREFIX|..] == "-" + b;
  }

  /** Whatever the header says, an accepted range lies inside the object. */
  lemma AcceptedRangeIsInside(header: string, size: nat)
    ensures ParseRange(header, size).Some? ==>
      var r := ParseRange(header, size).value;
      0 <= r.start <= r.end < size
  {
    if ParseRange(header, size).Some? {
      var spec := header[|PREFIX|..];
      var dash := IndexOf(spec, '-');
      if dash > 0 {
        assert spec[0] == spec[..dash][0] != '-';
      }
    }
  }

  // ---- The plan ----

  /** A chunk of the object: where it starts, how long the index says it is, and its hash. */
  datatype ChunkDesc = ChunkDesc(offset: nat, size: nat, digest: Digest)

  datatype PlanEntry = PlanEntry(desc: ChunkDesc, skip: nat, take: nat)

  /** The part of a fetched chunk that goes to the client; a skip past its end would be out of bounds. */
  function Slice(e: PlanEntry, data: Bytes): Bytes {
    if e.skip > |data| then []
    else if e.skip != 0 || e.take != |data| then
      var end := e.skip + e.take;
      data[e.skip..if end > |data| then |data| else end]
    else data
  }

  /** The plan asks for no more than the chunk holds. */
  predicate EntryFits(e: PlanEntry) {
    e.skip + e.take <= |e.desc.digest.of|
  }

  predicate PlanFits(plan: seq<PlanEntry>) {
    forall i :: 0 <= i < |plan| ==> EntryFits(plan[i])
  }

  /** What a plan serves when every chunk it names is the one that was stored. */
  function Served(plan: seq<PlanEntry>): Bytes {
    if plan == [] then [] else Slice(plan[0], plan[0].desc.digest.of) + Served(plan[1..])
  }

  function Object(descs: seq<ChunkDesc>): Bytes {
    if descs == [] then [] else descs[0].digest.of + Object(descs[1..])
  }

  /** Chunks lie end to end from `base`, and the index knows their lengths. */
  predicate Tiles(descs: seq<ChunkDesc>, base: nat) {
    descs == [] || (
      && descs[0].offset == base && descs[0].size == |descs[0].digest.of| > 0
      && Tiles(descs[1..], base + descs[0].size))
  }

  function Trim(d: ChunkDesc, r: Range): PlanEntry
    requires d.offset + d.size - 1 >= r.start && d.offset <= r.end && r.start >= 0 && r.start <= r.end + 1
  {
    var skip := if r.start > d.offset then r.start - d.offset else 0;
    var last := if r.end < d.offset + d.size - 1 then r.end else d.offset + d.size - 1;
    PlanEntry(d, skip, last - (d.offset + skip) + 1)
  }

  function PlanFor(descs: seq<ChunkDesc>, r: Range): seq<PlanEntry>
    requires 0 <= r.start <= r.end
  {
    if descs == [] then []
    else if descs[0].offset + descs[0].size - 1 < r.start then PlanFor(descs[1..], r)
    else if descs[0].offset > r.end then []
    else [Trim(descs[0], r)] + PlanFor(descs[1..], r)
  }

  method BuildPlan(descs: seq<ChunkDesc>, range: Option<Range>) returns (plan: seq<PlanEntry>)
    requires range.Some? ==> 0 <= range.value.start <= range.value.end
    ensures range.Some? ==> plan == PlanFor(descs, range.value)
    ensures range.None? ==> plan == WholePlan(descs)
  {
    plan := [];
    var i := 0;
    if range.Some? {
      var r := range.value;
      while i < |descs|
        invariant i <= |descs|
        invariant PlanFor(descs, r) == plan + PlanFor(descs[i..], r)
      {
        var d := descs[i];
        assert descs[i..][1..] == descs[i + 1..];
        i := i + 1;
        var chunkStart, chunkEnd := d.offset, d.offset + d.size - 1;
        if chunkEnd < r.start {
          continue;
        }
        if chunkStart > r.end {
          break;
        }
        var skip := 0;
        if r.start > chunkStart {
          skip := r.start - chunkStart;
        }
        var takeEnd := chunkEnd;
        if r.end < takeEnd {
          takeEnd := r.end;
        }
        plan := plan + [PlanEntry(d, skip, takeEnd - (chunkStart + skip) + 1)];
      }
    } else {
      while i < |descs|
        invariant i <= |descs|
        invariant WholePlan(descs) == plan + WholePlan(descs[i..])
      {
        assert descs[i..][1..] == descs[i + 1..];
        plan := plan + [PlanEntry(descs[i], 0, descs[i].size)];
        i := i + 1;
      }
    }
  }

  function WholePlan(descs: seq<ChunkDesc>): seq<PlanEntry> {
    if descs == [] then [] else [PlanEntry(descs[0], 0, descs[0].size)] + WholePlan(descs[1..])
  }

  function Takes(plan: seq<PlanEntry>): nat {
    if plan == [] then 0 else plan[0].take + Takes(plan[1..])
  }

  /** The bytes of `s`, which starts at position `base` of the object, that lie in the range. */
  function Inside(s: Bytes, base: nat, r: Range): Bytes {
    if s == [] then []
    else if r.start <= base <= r.end then [s[0]] + Inside(s[1..], base + 1, r)
    else Inside(s[1..], base + 1, r)
  }

  lemma {:induction false} InsideConcat(a: Bytes, b: Bytes, base: nat, r: Range)
    ensures Inside(a + b, base, r) == Inside(a, base, r) + Inside(b, base + |a|, r)
  {
    if a == [] {
      assert a + b == b;
    } else {
      assert (a + b)[1..] == a[1..] + b;
      InsideConcat(a[1..], b, base + 1, r);
    }
  }

  lemma {:induction false} NothingInside(s: Bytes, base: nat, r: Range)
    requires s == [] || base > r.end || base + |s| <= r.start
    ensures Inside(s, base, r) == []
  {
    if s != [] {
      NothingInside(s[1..], base + 1, r);
    }
  }

  lemma {:induction false} AllInside(s: Bytes, base: nat, r: Range)
    requires r.start <= base && base + |s| - 1 <= r.end
    ensures Inside(s, base, r) == s
  {
    if s != [] {
      AllInside(s[1..], base + 1, r);
    }
  }

  lemma InsideMiddle(before: Bytes, within: Bytes, after: Bytes, base: nat, r: Range)
    requires before == [] || base + |before| == r.start
    requires after == [] || base + |before| + |within| == r.end + 1
    requires r.start <= base + |before| && base + |before| + |within| <= r.end + 1
    ensures Inside(before + within + after, base, r) == within
  {
    NothingInside(before, base, r);
    AllInside(within, base + |before|, r);
    NothingInside(after, base + |before| + |within|, r);
    InsideConcat(before, within, base, r);
    InsideConcat(before + within, after, base, r);
  }

  lemma InsideIsSlice(s: Bytes, base: nat, lo: nat, hi: nat, r: Range)
    requires lo <= hi <= |s|
    requires lo == 0 || base + lo == r.start
    requires hi == |s| || base + hi == r.end + 1
    requires r.start <= base + lo && base + hi <= r.end + 1
    ensures Inside(s, base, r) == s[lo..hi]
  {
    InsideMiddle(s[..lo], s[lo..hi], s[hi..], base, r);
    assert s == s[..lo] + s[lo..hi] + s[hi..];
  }

  lemma TrimIsInside(d: ChunkDesc, r: Range)
    requires d.size == |d.digest.of| > 0 && 0 <= r.start <= r.end
    requires d.offset + d.size - 1 >= r.start && d.offset <= r.end
    ensures EntryFits(Trim(d, r)) && Trim(d, r).take > 0
    ensures Slice(Trim(d, r), d.digest.of) == Inside(d.digest.of, d.offset, r)
  {
    var e := Trim(d, r);
    InsideIsSlice(d.digest.of, d.offset, e.skip, e.skip + e.take, r);
  }

  lemma ServedCons(e: PlanEntry, rest: seq<PlanEntry>)
    ensures Served([e] + rest) == Slice(e, e.desc.digest.of) + Served(rest)
  {
    assert ([e] + rest)[1..] == rest;
  }

  lemma {:induction false} PlanServesInside(descs: seq<ChunkDesc>, base: nat, r: Range)
    requires Tiles(descs, base) && 0 <= r.start <= r.end
    ensures Served(PlanFor(descs, r)) == Inside(Object(descs), base, r)
  {
    if descs == [] {
    } else if base > r.end {
      NothingInside(Object(descs), base, r);
    } else {
      var d, rest := descs[0], descs[1..];
      PlanServesInside(rest, base + d.size, r);
      InsideConcat(d.digest.of, Object(rest), base, r);
      if base + d.size - 1 < r.start {
        NothingInside(d.digest.of, base, r);
      } else {
        TrimIsInside(d, r);
        ServedCons(Trim(d, r), PlanFor(rest, r));
      }
    }
  }

  lemma {:induction false} RangeFits(descs: seq<ChunkDesc>, base: nat, r: Range)
    requires Tiles(descs, base) && 0 <= r.start <= r.end
    ensures PlanFits(PlanFor(descs, r))
    ensures forall i :: 0 <= i < |PlanFor(descs, r)| ==> PlanFor(descs, r)[i].take > 0
  {
    if descs != [] {
      RangeFits(descs[1..], base + descs[0].size, r);
      if descs[0].offset + descs[0].size - 1 >= r.start && descs[0].offset <= r.end {
        TrimIsInside(descs[0], r);
      }
    }
  }

  lemma {:induction false} TakesCountBytes(plan: seq<PlanEntry>)
    requires PlanFits(plan)
    ensures Takes(plan) == |Served(plan)|
  {
    if plan != [] {
      TakesCountBytes(plan[1..]);
    }
  }

  /**
   For a satisfiable header the slices stay inside their chunks, none is empty, they add up to the declared
   length, and together they are exactly the requested bytes of the object.
   */
  lemma RangeServesRequestedBytes(descs: seq<ChunkDesc>, header: string)
    requires Tiles(descs, 0) && ParseRange(header, |Object(descs)|).Some?
    ensures var r := ParseRange(header, |Object(descs)|).value;
      && 0 <= r.start <= r.end < |Object(descs)|
      && var plan := PlanFor(descs, r);
      && PlanFits(plan) && (forall i :: 0 <= i < |plan| ==> plan[i].take > 0)
      && Takes(plan) == r.Length()
      && Served(plan) == Object(descs)[r.start..r.end + 1]
  {
    AcceptedRangeIsInside(header, |Object(descs)|);
    var r := ParseRange(header, |Object(descs)|).value;
    PlanServesInside(descs, 0, r);
    InsideIsSlice(Object(descs), 0, r.start, r.end + 1, r);
    RangeFits(descs, 0, r);
    TakesCountBytes(PlanFor(descs, r));
  }

  lemma {:induction false} WholePlanServesObject(descs: seq<ChunkDesc>, base: nat)
    requires Tiles(descs, base)
    ensures PlanFits(WholePlan(descs)) && Served(WholePlan(descs)) == Object(descs)
  {
    if descs != [] {
      WholePlanServesObject(descs[1..], base + descs[0].size);
      assert WholePlan(descs)[1..] == WholePlan(descs[1..]);
    }
  }
}
