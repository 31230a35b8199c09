/**
 What a lookup in the configuration tree finds: a position exactly when the segments of the path name the children on
 the way to it, one by one.
 */
module ConfigLookup {
  import opened Text
  import opened ConfigTree
  import opened Wrappers
  import ConfigPaths

  function Zeros(z: nat): string { seq(z, _ => '0') }

  /**
   The segment means child `i`: the first field of that name, or in an array the number `i` in decimal, with any zeros
   in front, in at most 19 digits.
   */
  ghost predicate Means(v: Value, segment: string, i: nat) {
    && segment != "" && i < Degree(v)
    && match v.data
       case Array(_) => |segment| <= MAX_DIGITS && exists z: nat :: segment == Zeros(z) + Decimal(i)
       case Object(fields) => fields[i].name == segment && forall j :: 0 <= j < i ==> fields[j].name != segment
       case _ => false
  }

  /** Each segment means the next child on the way. */
  ghost predicate Leads(v: Value, segments: seq<string>, pos: Position) {
    if segments == [] then pos == []
    else
      && pos != [] && pos[0] < Degree(v) && Means(v, segments[0], pos[0])
      && Leads(Child(v, pos[0]), segments[1..], pos[1..])
  }

  // ---------------------------------------------------------------------------------------------
  // Numbers
  // ---------------------------------------------------------------------------------------------

  lemma {:induction false} NumberOfZero(s: string)
    requires forall i :: 0 <= i < |s| ==> IsDigit(s[i])
    requires Number(s) == 0
    ensures s == Zeros(|s|)
  {
    if s != "" {
      NumberOfZero(s[..|s| - 1]);
    }
  }

  lemma {:induction false} LeadingZeros(z: nat, n: nat)
    ensures IsIndex(Zeros(z) + Decimal(n)) && Number(Zeros(z) + Decimal(n)) == n
  {
    ConfigPaths.DecimalReads(n);
    var d := Decimal(n);
    var s := Zeros(z) + d;
    assert s[..|s| - 1] == Zeros(z) + d[..|d| - 1];
    if n < 10 {
      NumberZeros(z);
      assert s[..|s| - 1] == Zeros(z);
    } else {
      LeadingZeros(z, n / 10);
      assert d[..|d| - 1] == Decimal(n / 10);
    }
  }

  lemma {:induction false} NumberZeros(z: nat)
    ensures Number(Zeros(z)) == 0
  {
    if z > 0 {
      assert Zeros(z)[..z - 1] == Zeros(z - 1);
      NumberZeros(z - 1);
    }
  }

  lemma {:induction false} DigitsAreDecimal(s: string) returns (z: nat)
    requires IsIndex(s)
    ensures s == Zeros(z) + Decimal(Number(s))
  {
    var n := |s| - 1;
    var before, d := s[..n], DigitValue(s[n]);
    if Number(before) == 0 {
      NumberOfZero(before);
      z := n;
    } else {
      z := DigitsAreDecimal(before);
      assert Decimal(Number(s)) == Decimal(Number(before)) + [Digit(d)];
    }
    assert s == before + [s[n]] && Digit(d) == s[n];
  }

  // ---------------------------------------------------------------------------------------------
  // One segment, then all of them
  // ---------------------------------------------------------------------------------------------

  lemma {:induction false} FieldNamedExactly(fields: seq<Field>, name: string, from: nat, i: nat)
    requires from <= i < |fields|
    ensures FieldNamed(fields, name, from) == Some(i) <==>
            fields[i].name == name && forall j :: from <= j < i ==> fields[j].name != name
    decreases |fields| - from
  {
    if from < i && fields[from].name != name {
      FieldNamedExactly(fields, name, from + 1, i);
    }
  }

  lemma ChildForExactly(v: Value, segment: string, i: nat)
    requires segment != ""
    ensures ChildFor(v, segment) == Some(i) <==> Means(v, segment, i)
  {
    match v.data {
      case Array(items) =>
        if ChildFor(v, segment) == Some(i) {
          var z := DigitsAreDecimal(segment);
        }
        if Means(v, segment, i) {
          var z: nat :| segment == Zeros(z) + Decimal(i);
          LeadingZeros(z, i);
        }
      case Object(fields) =>
        if i < |fields| {
          FieldNamedExactly(fields, segment, 0, i);
        }
      case _ =>
    }
  }

  lemma {:induction false} WalkExactly(v: Value, segments: seq<string>, pos: Position)
    ensures Walk(v, segments) == Some(pos) <==> Leads(v, segments, pos)
  {
    if segments != [] && segments[0] != "" {
      if pos != [] {
        ChildForExactly(v, segments[0], pos[0]);
        if pos[0] < Degree(v) {
          WalkExactly(Child(v, pos[0]), segments[1..], pos[1..]);
        }
        assert pos == [pos[0]] + pos[1..];
      }
    }
  }

  /**
   The empty path finds the root. Any other finds a position exactly when its segments lead there, and so finds
   nothing exactly when they lead nowhere.
   */
  lemma {:induction false} FindExactly(v: Value, path: string, pos: Position)
    ensures FindPos(v, path) == Some(pos) <==>
            if path == "" then pos == [] else Leads(v, Fields(path, ".", 0), pos)
  {
    WalkExactly(v, Fields(path, ".", 0), pos);
  }
}
