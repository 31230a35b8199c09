/**
 Splitting, joining and replacing on strings of bytes.
 */
module Text {
  import opened Wrappers

  /** An empty delimiter is an invalid argument. */
  datatype Result<T> = Ok(value: T) | InvalidArgument

  predicate OccursAt(s: string, d: string, k: nat) {
    k + |d| <= |s| && forall j :: 0 <= j < |d| ==> s[k + j] == d[j]
  }

  predicate Contains(s: string, d: string) { exists k :: 0 <= k <= |s| && OccursAt(s, d, k) }

  /** The first occurrence of `d` in `s` at or after `from`. */
  function First(s: string, d: string, from: nat): (r: Option<nat>)
    ensures r.Some? ==> from <= r.value && r.value + |d| <= |s|
    decreases |s| - from
  {
    if from + |d| > |s| then None
    else if OccursAt(s, d, from) then Some(from)
    else First(s, d, from + 1)
  }

  lemma {:induction false} FirstIsFirst(s: string, d: string, from: nat)
    ensures match First(s, d, from)
            case Some(k) => OccursAt(s, d, k) && forall j :: from <= j < k ==> !OccursAt(s, d, j)
            case None => forall j :: from <= j ==> !OccursAt(s, d, j)
    decreases |s| - from
  {
    if from + |d| <= |s| && !OccursAt(s, d, from) {
      FirstIsFirst(s, d, from + 1);
    }
  }

  lemma FirstOccurs(s: string, d: string, from: nat)
    ensures First(s, d, from).Some? ==> OccursAt(s, d, First(s, d, from).value)
  {
    FirstIsFirst(s, d, from);
  }

  lemma {:induction false} FirstIs(s: string, d: string, from: nat, k: nat)
    requires from <= k && OccursAt(s, d, k) && forall j :: from <= j < k ==> !OccursAt(s, d, j)
    ensures First(s, d, from) == Some(k)
    decreases k - from
  {
    if from < k {
      FirstIs(s, d, from + 1, k);
    }
  }

  /** `find` of the standard library. */
  method Find(s: string, d: string, from: nat) returns (r: Option<nat>)
    ensures r == First(s, d, from)
  {
    var k := from;
    while k + |d| <= |s|
      invariant from <= k && First(s, d, from) == First(s, d, k)
      decreases |s| - k
    {
      if s[k..k + |d|] == d {
        return Some(k);
      }
      k := k + 1;
    }
    return None;
  }

  /** The fields of `s` from `start` on. */
  function Fields(s: string, d: string, start: nat): (r: seq<string>)
    requires |d| > 0 && start <= |s|
    ensures |r| > 0
    decreases |s| - start
  {
    match First(s, d, start)
    case None => [s[start..]]
    case Some(k) => [s[start..k]] + Fields(s, d, k + |d|)
  }

  function Joined(parts: seq<string>, d: string): string {
    if parts == [] then ""
    else if |parts| == 1 then parts[0]
    else parts[0] + d + Joined(parts[1..], d)
  }

  /** The next field and the rest. */
  lemma FieldsStep(s: string, d: string, start: nat, glue: string)
    requires |d| > 0 && start <= |s| && First(s, d, start).Some?
    ensures var k := First(s, d, start).value; var rest := Fields(s, d, k + |d|);
            && Fields(s, d, start) == [s[start..k]] + rest
            && Joined(Fields(s, d, start), glue) == s[start..k] + glue + Joined(rest, glue)
  {
    var k := First(s, d, start).value;
    JoinedCons(s[start..k], Fields(s, d, k + |d|), glue);
  }

  lemma JoinedCons(part: string, rest: seq<string>, d: string)
    requires rest != []
    ensures Joined([part] + rest, d) == part + d + Joined(rest, d)
  {
    assert ([part] + rest)[1..] == rest;
  }

  lemma Regroup<T>(a: seq<T>, b: seq<T>, c: seq<T>, d: seq<T>)
    ensures a + b + c + d == a + (b + c + d)
  {
  }

  lemma Regroup3<T>(a: seq<T>, b: seq<T>, c: seq<T>)
    ensures a + b + c == a + (b + c)
  {
  }

  lemma Pieces(s: string, d: string, lo: nat, k: nat)
    requires lo <= k && OccursAt(s, d, k)
    ensures s[lo..k] + d + s[k + |d|..] == s[lo..]
  {
    var a, b := s[lo..k] + d + s[k + |d|..], s[lo..];
    assert |a| == |b|;
    forall i | 0 <= i < |b| ensures a[i] == b[i] {
      if k - lo <= i < k - lo + |d| {
        assert a[i] == d[i - (k - lo)] && s[k + (i - (k - lo))] == d[i - (k - lo)];
      }
    }
  }

  // ---------------------------------------------------------------------------------------------
  // The operations
  // ---------------------------------------------------------------------------------------------

  method Split(input: string, delimiter: string) returns (r: Result<seq<string>>)
    ensures r == if delimiter == "" then InvalidArgument else Ok(Fields(input, delimiter, 0))
  {
    if delimiter == "" {
      return InvalidArgument;
    }
    var parts: seq<string> := [];
    var start := 0;
    while true
      invariant start <= |input|
      invariant parts + Fields(input, delimiter, start) == Fields(input, delimiter, 0)
      decreases |input| - start
    {
      var position := Find(input, delimiter, start);
      if position.None? {
        parts := parts + [input[start..]];
        break;
      }
      FieldsStep(input, delimiter, start, "");
      Regroup3(parts, [input[start..position.value]], Fields(input, delimiter, position.value + |delimiter|));
      parts := parts + [input[start..position.value]];
      start := position.value + |delimiter|;
    }
    return Ok(parts);
  }

  /** The total length of the first `n` parts. */
  function TotalLength(parts: seq<string>, n: nat): nat
    requires n <= |parts|
  {
    if n == 0 then 0 else TotalLength(parts, n - 1) + |parts[n - 1]|
  }

  /** The space `join` reserves is exactly what it fills. */
  method Join(parts: seq<string>, delimiter: string) returns (result: string)
    ensures result == Joined(parts, delimiter)
    ensures |result| == TotalLength(parts, |parts|) + if parts == [] then 0 else |delimiter| * (|parts| - 1)
  {
    result := "";
    for i := 0 to |parts|
      invariant result == Joined(parts[..i], delimiter)
      invariant |result| == TotalLength(parts, i) + if i == 0 then 0 else |delimiter| * (i - 1)
    {
      JoinedSnoc(parts[..i], parts[i], delimiter);
      assert parts[..i + 1] == parts[..i] + [parts[i]];
      if i > 0 {
        result := result + delimiter;
        assert |delimiter| * i == |delimiter| * (i - 1) + |delimiter|;
      }
      result := result + parts[i];
    }
    assert parts[..|parts|] == parts;
  }

  lemma {:induction false} JoinedSnoc(parts: seq<string>, last: string, d: string)
    ensures Joined(parts + [last], d) == if parts == [] then last else Joined(parts, d) + d + last
  {
    if |parts| > 1 {
      JoinedSnoc(parts[1..], last, d);
      assert (parts + [last])[1..] == parts[1..] + [last];
      assert Joined(parts + [last], d) == parts[0] + d + (Joined(parts[1..], d) + d + last);
    } else if |parts| == 1 {
      assert (parts + [last])[1..] == [last];
    }
  }

  /** How often `a` is found from `start` on, going on after each find. */
  function Occurrences(s: string, a: string, start: nat): nat
    requires |a| > 0
    decreases |s| - start
  {
    match First(s, a, start)
    case None => 0
    case Some(k) => 1 + Occurrences(s, a, k + |a|)
  }

  /** The first pass of `replace_all`. */
  method CountOccurrences(input: string, from: string) returns (n: nat)
    requires from != ""
    ensures n == Occurrences(input, from, 0)
  {
    n := 0;
    ghost var start := 0;
    var position := Find(input, from, 0);
    while position.Some?
      invariant position == First(input, from, start)
      invariant n + Occurrences(input, from, start) == Occurrences(input, from, 0)
      decreases |input| - start
    {
      n := n + 1;
      start := position.value + |from|;
      position := Find(input, from, position.value + |from|);
    }
  }

  /** There is one field more than delimiters. */
  lemma {:induction false} FieldCount(s: string, a: string, start: nat)
    requires |a| > 0 && start <= |s|
    ensures |Fields(s, a, start)| == Occurrences(s, a, start) + 1
    decreases |s| - start
  {
    match First(s, a, start) {
      case None =>
      case Some(k) => FieldCount(s, a, k + |a|);
    }
  }

  /** Each occurrence replaced changes the length by the difference. */
  lemma {:induction false} ReplacedLength(s: string, a: string, b: string, start: nat)
    requires |a| > 0 && start <= |s|
    ensures |Joined(Fields(s, a, start), b)| + Multiple(Occurrences(s, a, start), |a|)
         == |s| - start + Multiple(Occurrences(s, a, start), |b|)
    decreases |s| - start
  {
    match First(s, a, start) {
      case None =>
      case Some(k) =>
        FieldsStep(s, a, start, b);
        ReplacedLength(s, a, b, k + |a|);
    }
  }

  function Multiple(n: nat, x: nat): nat { if n == 0 then 0 else x + Multiple(n - 1, x) }

  lemma {:induction false} MultipleIsProduct(n: nat, x: nat)
    ensures Multiple(n, x) == n * x
  {
    if n > 0 {
      MultipleIsProduct(n - 1, x);
      assert n * x == (n - 1) * x + x;
    }
  }

  /** The second pass of `replace_all`. */
  method ReplaceEach(input: string, from: string, to: string) returns (result: string)
    requires from != ""
    ensures result == Joined(Fields(input, from, 0), to)
  {
    result := "";
    var start := 0;
    while true
      invariant start <= |input|
      invariant result + Joined(Fields(input, from, start), to) == Joined(Fields(input, from, 0), to)
      decreases |input| - start
    {
      var position := Find(input, from, start);
      if position.None? {
        break;
      }
      FieldsStep(input, from, start, to);
      Regroup(result, input[start..position.value], to, Joined(Fields(input, from, position.value + |from|), to));
      result := result + input[start..position.value] + to;
      start := position.value + |from|;
    }
    result := result + input[start..];
  }

  /** Replacing is splitting at one string and joining with another, and what was reserved for it is enough. */
  method ReplaceAll(input: string, from: string, to: string) returns (r: Result<string>, reserved: nat)
    ensures r == if from == "" then InvalidArgument else Ok(Joined(Fields(input, from, 0), to))
    ensures r.Ok? ==> |r.value| <= reserved
  {
    if from == "" {
      return InvalidArgument, 0;
    }
    var occurrences := CountOccurrences(input, from);
    reserved := |input| + occurrences * |to|;
    var result := ReplaceEach(input, from, to);
    ReplacedLength(input, from, to, 0);
    MultipleIsProduct(occurrences, |to|);
    r := Ok(result);
  }

  method ReplaceFirst(input: string, from: string, to: string) returns (r: Result<string>)
    ensures from == "" <==> r.InvalidArgument?
    ensures r.Ok? ==> var parts := Fields(input, from, 0);
                      r.value == if |parts| == 1 then input else parts[0] + to + Joined(parts[1..], from)
  {
    if from == "" {
      return InvalidArgument;
    }
    var position := Find(input, from, 0);
    if position.None? {
      return Ok(input);
    }
    JoinOfFields(input, from, position.value + |from|);
    FieldsStep(input, from, 0, from);
    return Ok(input[..position.value] + to + input[position.value + |from|..]);
  }

  // ---------------------------------------------------------------------------------------------
  // What splitting and joining mean to each other
  // ---------------------------------------------------------------------------------------------

  /** Joining what was split gives the input back. */
  lemma {:induction false} JoinOfFields(s: string, d: string, start: nat)
    requires |d| > 0 && start <= |s|
    ensures Joined(Fields(s, d, start), d) == s[start..]
    decreases |s| - start
  {
    if First(s, d, start).Some? {
      var k := First(s, d, start).value;
      JoinOfFields(s, d, k + |d|);
      FirstOccurs(s, d, start);
      JoinStep(s, d, start, k, Fields(s, d, k + |d|));
    }
  }

  lemma JoinStep(s: string, d: string, start: nat, k: nat, rest: seq<string>)
    requires start <= k && OccursAt(s, d, k) && rest != [] && Joined(rest, d) == s[k + |d|..]
    ensures Joined([s[start..k]] + rest, d) == s[start..]
  {
    JoinedCons(s[start..k], rest, d);
    Pieces(s, d, start, k);
  }

  /** No field contains the delimiter. */
  lemma {:induction false} FieldsAreFree(s: string, d: string, start: nat)
    requires |d| > 0 && start <= |s|
    ensures forall i :: 0 <= i < |Fields(s, d, start)| ==> !Contains(Fields(s, d, start)[i], d)
    decreases |s| - start
  {
    var fields := Fields(s, d, start);
    FirstIsFirst(s, d, start);
    var end := match First(s, d, start) case None => |s| case Some(k) => k;
    forall k | 0 <= k <= |fields[0]| ensures !OccursAt(fields[0], d, k) {
      Within(s, start, end, d, k);
    }
    if First(s, d, start).Some? {
      FieldsAreFree(s, d, end + |d|);
      assert fields[1..] == Fields(s, d, end + |d|);
    }
  }

  /** An occurrence in a slice is an occurrence in the whole. */
  lemma Within(s: string, lo: nat, hi: nat, d: string, k: nat)
    requires lo <= hi <= |s|
    ensures OccursAt(s[lo..hi], d, k) <==> lo + k + |d| <= hi && OccursAt(s, d, lo + k)
  {
    if lo + k + |d| <= hi {
      var a, b := s[lo..hi][k..k + |d|], s[lo + k..lo + k + |d|];
      assert |a| == |b| && forall j :: 0 <= j < |d| ==> a[j] == b[j];
    }
  }

  /** The first occurrence of the delimiter in `part`, when followed by one, is that one. */
  predicate Clean(part: string, d: string) { First(part + d, d, 0) == Some(|part|) }

  /** All parts but the last are clean and the last is free of the delimiter. */
  predicate Separable(parts: seq<string>, d: string)
    requires parts != []
  {
    && (forall i :: 0 <= i < |parts| - 1 ==> Clean(parts[i], d))
    && First(parts[|parts| - 1], d, 0) == None
  }

  /** Exactly the separable lists come back from a join. */
  lemma {:induction false} SplitOfJoin(parts: seq<string>, d: string)
    requires parts != [] && |d| > 0
    ensures Fields(Joined(parts, d), d, 0) == parts <==> Separable(parts, d)
  {
    if |parts| == 1 {
      assert parts == [parts[0]];
    } else {
      SplitOfJoin(parts[1..], d);
      SeparableTail(parts, d);
      FirstField(parts[0], Joined(parts[1..], d), d);
      assert parts == [parts[0]] + parts[1..];
    }
  }

  /** A part comes back from in front of a delimiter exactly when it is clean, and then the rest is split alone. */
  lemma FirstField(part: string, rest: string, d: string)
    requires |d| > 0
    ensures var fields := Fields(part + d + rest, d, 0);
            && (fields[0] == part <==> Clean(part, d))
            && (Clean(part, d) ==> fields == [part] + Fields(rest, d, 0))
  {
    LeadingDelimiter(part, d, rest);
    FieldsStep(part + d + rest, d, 0, d);
    if Clean(part, d) {
      CleanField(part + d + rest, part, rest, d);
    }
  }

  lemma CleanField(whole: string, part: string, rest: string, d: string)
    requires |d| > 0 && EndsWith(whole, |part| + |d|, rest) && whole[0..|part|] == part
    requires First(whole, d, 0) == Some(|part|)
    ensures Fields(whole, d, 0) == [part] + Fields(rest, d, 0)
  {
    FieldsHead(whole, d, 0, |part|);
    FieldsShiftFrom(whole, |part| + |d|, rest, d, 0);
  }

  lemma SeparableTail(parts: seq<string>, d: string)
    requires |parts| > 1
    ensures Separable(parts, d) <==> Clean(parts[0], d) && Separable(parts[1..], d)
  {
    if Clean(parts[0], d) && Separable(parts[1..], d) {
      forall i | 0 <= i < |parts| - 1 ensures Clean(parts[i], d) {
        assert i > 0 ==> parts[i] == parts[1..][i - 1];
      }
    }
    if Separable(parts, d) {
      forall i | 0 <= i < |parts| - 2 ensures Clean(parts[1..][i], d) {
        assert parts[1..][i] == parts[i + 1];
      }
    }
  }

  /** What follows a delimiter does not change where the first one is. */
  lemma LeadingDelimiter(part: string, d: string, rest: string)
    requires |d| > 0
    ensures First(part + d + rest, d, 0) == First(part + d, d, 0)
    ensures First(part + d, d, 0).Some? && First(part + d, d, 0).value <= |part|
  {
    var whole := part + d + rest;
    assert whole[0..|part + d|] == part + d;
    assert OccursAt(part + d, d, |part|);
    forall k | 0 <= k <= |part| ensures OccursAt(whole, d, k) <==> OccursAt(part + d, d, k) {
      Within(whole, 0, |part + d|, d, k);
    }
    FirstIsFirst(part + d, d, 0);
    FirstIs(whole, d, 0, First(part + d, d, 0).value);
  }

  /** From position `h` on, `whole` is `tail`. */
  predicate EndsWith(whole: string, h: nat, tail: string) {
    |whole| == h + |tail| && forall i :: 0 <= i < |tail| ==> whole[h + i] == tail[i]
  }

  /** Splitting from a point on is splitting what comes from that point on. */
  lemma {:induction false} FieldsShiftFrom(whole: string, h: nat, tail: string, d: string, start: nat)
    requires |d| > 0 && EndsWith(whole, h, tail) && start <= |tail|
    ensures Fields(whole, d, h + start) == Fields(tail, d, start)
    decreases |tail| - start
  {
    FirstShift(whole, h, tail, d, start);
    if First(tail, d, start).None? {
      SliceShift(whole, h, tail, start, |tail|);
    } else {
      var k := First(tail, d, start).value;
      SliceShift(whole, h, tail, start, k);
      FieldsShiftFrom(whole, h, tail, d, k + |d|);
      FieldsHead(tail, d, start, k);
      FieldsHead(whole, d, h + start, h + k);
    }
  }

  lemma FieldsHead(s: string, d: string, start: nat, k: nat)
    requires |d| > 0 && start <= |s| && First(s, d, start) == Some(k)
    ensures Fields(s, d, start) == [s[start..k]] + Fields(s, d, k + |d|)
  {
  }

  lemma SliceShift(whole: string, h: nat, tail: string, lo: nat, hi: nat)
    requires EndsWith(whole, h, tail) && lo <= hi <= |tail|
    ensures whole[h + lo..h + hi] == tail[lo..hi] && whole[h + lo..] == tail[lo..]
  {
  }

  lemma {:induction false} FirstShift(whole: string, h: nat, tail: string, d: string, start: nat)
    requires EndsWith(whole, h, tail)
    ensures First(whole, d, h + start) == match First(tail, d, start) case None => None case Some(k) => Some(h + k)
    decreases |tail| - start
  {
    if start + |d| <= |tail| {
      OccursShift(whole, h, tail, d, start);
      FirstShift(whole, h, tail, d, start + 1);
    }
  }

  lemma OccursShift(whole: string, h: nat, tail: string, d: string, k: nat)
    requires EndsWith(whole, h, tail)
    ensures OccursAt(whole, d, h + k) <==> OccursAt(tail, d, k)
  {
    if k + |d| <= |tail| {
      forall j | 0 <= j < |d| ensures whole[h + k + j] == d[j] <==> tail[k + j] == d[j] {
        assert whole[h + (k + j)] == tail[k + j];
      }
    }
  }

  /** For a delimiter of one character, exactly the lists of delimiter-free parts come back. */
  lemma {:induction false} SplitOfJoinChar(parts: seq<string>, d: string)
    requires parts != [] && |d| == 1
    ensures Fields(Joined(parts, d), d, 0) == parts <==> forall i :: 0 <= i < |parts| ==> !Contains(parts[i], d)
  {
    SplitOfJoin(parts, d);
    SeparableIsFree(parts, d);
  }

  lemma SeparableIsFree(parts: seq<string>, d: string)
    requires parts != [] && |d| == 1
    ensures Separable(parts, d) <==> forall i :: 0 <= i < |parts| ==> !Contains(parts[i], d)
  {
    var last := |parts| - 1;
    FreeIsNone(parts[last], d);
    forall i | 0 <= i < last ensures Clean(parts[i], d) <==> !Contains(parts[i], d) {
      FreeIsClean(parts[i], d);
    }
  }

  lemma FreeIsNone(part: string, d: string)
    ensures First(part, d, 0) == None <==> !Contains(part, d)
  {
    FirstIsFirst(part, d, 0);
  }

  lemma FreeIsClean(part: string, d: string)
    requires |d| == 1
    ensures Clean(part, d) <==> !Contains(part, d)
  {
    var whole := part + d;
    assert whole[0..|part|] == part && OccursAt(whole, d, |part|);
    forall k | 0 <= k < |part| ensures OccursAt(whole, d, k) <==> OccursAt(part, d, k) {
      Within(whole, 0, |part|, d, k);
    }
    FirstIsFirst(whole, d, 0);
  }

  /** A longer delimiter may not give delimiter-free parts back. */
  lemma {:induction false} LongDelimiterMerges()
    ensures var parts := ["a", "b"];
            && (forall i :: 0 <= i < |parts| ==> !Contains(parts[i], "aa"))
            && Fields(Joined(parts, "aa"), "aa", 0) != parts
  {
    var parts := ["a", "b"];
    assert OccursAt("a" + "aa", "aa", 0);
    assert !Clean(parts[0], "aa");
    SplitOfJoin(parts, "aa");
  }
}
