/**
 The dotted paths of a configuration tree: looking up the path recorded in a node leads back to that
 very node.
 */
module ConfigPaths {
  import opened Text
  import opened ConfigTree
  import opened Wrappers

  // ---------------------------------------------------------------------------------------------
  // Numbers as segments
  // ---------------------------------------------------------------------------------------------

  function Pow10(n: nat): nat { if n == 0 then 1 else 10 * Pow10(n - 1) }

  lemma {:induction false} NumberBound(s: string)
    requires forall i :: 0 <= i < |s| ==> IsDigit(s[i])
    ensures Number(s) < Pow10(|s|)
  {
    if s != "" {
      NumberBound(s[..|s| - 1]);
    }
  }

  lemma {:induction false} Pow10Grows(m: nat, n: nat)
    requires m <= n
    ensures Pow10(m) <= Pow10(n)
  {
    if m < n {
      Pow10Grows(m, n - 1);
    }
  }

  lemma Pow10Of19()
    ensures Pow10(19) == 10000000000000000000
  {
    assert Pow10(5) == 100000;
    assert Pow10(10) == 10000000000;
    assert Pow10(15) == 1000000000000000;
  }

  /** An index that is parsed at all fits in 64 bits. */
  lemma {:induction false} IndexNeverOverflows(segment: string)
    requires IsIndex(segment) && |segment| <= MAX_DIGITS
    ensures Number(segment) < 0x1_0000_0000_0000_0000
  {
    NumberBound(segment);
    Pow10Grows(|segment|, 19);
    Pow10Of19();
  }

  lemma {:induction false} DecimalReads(n: nat)
    ensures IsIndex(Decimal(n)) && Number(Decimal(n)) == n
  {
    if n >= 10 {
      DecimalReads(n / 10);
      var s := Decimal(n);
      assert s[..|s| - 1] == Decimal(n / 10);
    } else {
      assert Decimal(n)[..0] == "";
    }
  }

  lemma {:induction false} DecimalLength(n: nat, k: nat)
    requires k > 0 && n < Pow10(k)
    ensures |Decimal(n)| <= k
  {
    if n >= 10 {
      assert k > 1 && n / 10 < Pow10(k - 1);
      DecimalLength(n / 10, k - 1);
    }
  }

  lemma DecimalClean(n: nat)
    ensures CleanName(Decimal(n))
  {
    DecimalReads(n);
    var s := Decimal(n);
    forall k | 0 <= k <= |s| ensures !OccursAt(s, ".", k) {
      if k < |s| {
        DigitIsNoDot(s, k);
      }
    }
  }

  lemma DigitIsNoDot(s: string, k: nat)
    requires k < |s| && IsDigit(s[k])
    ensures !OccursAt(s, ".", k)
  {
    var dot := ".";
    assert s[k + 0] != dot[0];
  }

  // ---------------------------------------------------------------------------------------------
  // What conversion records
  // ---------------------------------------------------------------------------------------------

  /** Every node carries its path, and no object has a key twice. */
  predicate Tagged(v: Value, path: string)
    decreases v
  {
    && v.path == path
    && match v.data
       case Array(items) => forall i :: 0 <= i < |items| ==> Tagged(items[i], ChildPath(path, Decimal(i)))
       case Object(fields) =>
         DistinctNames(fields)
         && forall i :: 0 <= i < |fields| ==> Tagged(fields[i].value, ChildPath(path, fields[i].name))
       case _ => true
  }

  lemma {:induction false} ItemAt(items: seq<Json>, n: nat, path: string, i: nat)
    requires i < n <= |items| && ConvertedItems(items, n, path).Some?
    ensures Converted(items[i], ChildPath(path, Decimal(i))) == Some(ConvertedItems(items, n, path).value[i])
  {
    if i < n - 1 {
      ItemAt(items, n - 1, path, i);
    }
  }

  lemma {:induction false} MemberAt(members: seq<Member>, n: nat, path: string, i: nat)
    requires i < n <= |members| && ConvertedMembers(members, n, path).Some?
    ensures var name, field := CString(members[i].name), ConvertedMembers(members, n, path).value[i];
            field.name == name && Converted(members[i].value, ChildPath(path, name)) == Some(field.value)
  {
    if i < n - 1 {
      MemberAt(members, n - 1, path, i);
    }
  }

  lemma {:induction false} ConvertedIsTagged(node: Json, path: string)
    requires Converted(node, path).Some?
    ensures Tagged(Converted(node, path).value, path)
  {
    match node {
      case JArray(items) =>
        forall i | 0 <= i < |items|
          ensures Tagged(ConvertedItems(items, |items|, path).value[i], ChildPath(path, Decimal(i)))
        {
          ItemAt(items, |items|, path, i);
          ConvertedIsTagged(items[i], ChildPath(path, Decimal(i)));
        }
      case JObject(members) =>
        forall i | 0 <= i < |members|
          ensures var field := ConvertedMembers(members, |members|, path).value[i];
                  Tagged(field.value, ChildPath(path, field.name))
        {
          MemberAt(members, |members|, path, i);
          ConvertedIsTagged(members[i].value, ChildPath(path, CString(members[i].name)));
        }
      case _ =>
    }
  }

  function Extended(base: string, names: seq<string>): string
    decreases names
  {
    if names == [] then base else Extended(ChildPath(base, names[0]), names[1..])
  }

  /** A node's recorded path is made of the names on the way to it. */
  lemma {:induction false} RecordedPath(v: Value, base: string, pos: Position)
    requires Tagged(v, base) && NodeAt(v, pos).Some?
    ensures NodeAt(v, pos).value.path == Extended(base, Names(v, pos))
  {
    if pos != [] {
      RecordedPath(Child(v, pos[0]), ChildPath(base, ChildName(v, pos[0])), pos[1..]);
      assert Names(v, pos)[1..] == Names(Child(v, pos[0]), pos[1..]);
    }
  }

  lemma {:induction false} ExtendedIsJoin(base: string, names: seq<string>)
    requires names != [] && forall i :: 0 <= i < |names| ==> names[i] != ""
    ensures Extended(base, names) == ChildPath(base, Joined(names, "."))
    decreases names
  {
    if |names| == 1 {
      assert names[1..] == [];
    } else {
      var rest := names[1..];
      forall i | 0 <= i < |rest| ensures rest[i] != "" {
        assert rest[i] == names[i + 1];
      }
      ExtendedIsJoin(ChildPath(base, names[0]), rest);
      assert base + "." + names[0] + "." + Joined(rest, ".") == base + "." + (names[0] + "." + Joined(rest, "."));
    }
  }

  // ---------------------------------------------------------------------------------------------
  // Walking along a node's own names
  // ---------------------------------------------------------------------------------------------

  const MAX_SIZE := 0x7fff_ffff_ffff_ffff

  /** No array is longer than a vector can be. */
  predicate Fits(v: Value)
    decreases v
  {
    match v.data
    case Array(items) => |items| <= MAX_SIZE && forall i :: 0 <= i < |items| ==> Fits(items[i])
    case Object(fields) => forall i :: 0 <= i < |fields| ==> Fits(fields[i].value)
    case _ => true
  }

  lemma {:induction false} FieldIsFirst(fields: seq<Field>, i: nat, from: nat)
    requires DistinctNames(fields) && from <= i < |fields|
    ensures FieldNamed(fields, fields[i].name, from) == Some(i)
    decreases i - from
  {
    if from < i {
      FieldIsFirst(fields, i, from + 1);
    }
  }

  lemma NameLeadsBack(v: Value, base: string, i: nat)
    requires Tagged(v, base) && Fits(v) && i < Degree(v)
    ensures ChildFor(v, ChildName(v, i)) == Some(i)
  {
    match v.data {
      case Array(items) =>
        DecimalReads(i);
        Pow10Of19();
        DecimalLength(i, 19);
      case Object(fields) =>
        FieldIsFirst(fields, i, 0);
    }
  }

  lemma {:induction false} WalkBack(v: Value, base: string, pos: Position)
    requires Tagged(v, base) && Fits(v) && NodeAt(v, pos).Some? && CleanWay(v, pos)
    ensures Walk(v, Names(v, pos)) == Some(pos)
  {
    if pos != [] {
      var name := ChildName(v, pos[0]);
      NameLeadsBack(v, base, pos[0]);
      WalkBack(Child(v, pos[0]), ChildPath(base, name), pos[1..]);
      assert Names(v, pos)[1..] == Names(Child(v, pos[0]), pos[1..]);
      assert [pos[0]] + pos[1..] == pos;
    }
  }

  lemma {:induction false} CleanNames(v: Value, pos: Position)
    requires NodeAt(v, pos).Some? && CleanWay(v, pos)
    ensures |Names(v, pos)| == |pos| && forall i :: 0 <= i < |pos| ==> CleanName(Names(v, pos)[i])
  {
    if pos != [] {
      CleanNames(Child(v, pos[0]), pos[1..]);
    }
  }

  /** Whatever a lookup finds lies on a clean way: the segments of a path have no dots and are not empty. */
  lemma {:induction false} WalkIsClean(v: Value, segments: seq<string>)
    requires Walk(v, segments).Some? && forall i :: 0 <= i < |segments| ==> !Contains(segments[i], ".")
    ensures var pos := Walk(v, segments).value; NodeAt(v, pos).Some? && CleanWay(v, pos)
  {
    if segments != [] {
      var i := ChildFor(v, segments[0]).value;
      var rest := segments[1..];
      forall k | 0 <= k < |rest| ensures !Contains(rest[k], ".") {
        assert rest[k] == segments[k + 1];
      }
      WalkIsClean(Child(v, i), rest);
      var pos := Walk(v, segments).value;
      assert pos[1..] == Walk(Child(v, i), rest).value;
      if v.data.Array? {
        DecimalClean(i);
      }
    }
  }

  lemma JoinedNotEmpty(names: seq<string>)
    requires names != [] && names[0] != ""
    ensures Joined(names, ".") != ""
  {
  }

  lemma CleanPathFound(v: Value, pos: Position)
    requires Tagged(v, "") && Fits(v) && NodeAt(v, pos).Some? && CleanWay(v, pos)
    ensures FindPos(v, NodeAt(v, pos).value.path) == Some(pos)
  {
    if pos != [] {
      var names := Names(v, pos);
      CleanNames(v, pos);
      RecordedPath(v, "", pos);
      ExtendedIsJoin("", names);
      JoinedNotEmpty(names);
      SplitOfJoinChar(names, ".");
      WalkBack(v, "", pos);
    }
  }

  // ---------------------------------------------------------------------------------------------
  // The round trip
  // ---------------------------------------------------------------------------------------------

  /**
   Looking up the path recorded in a node finds that very node exactly when every key on the way to it
   is non-empty and free of dots.
   */
  lemma {:induction false} PathRoundTrip(document: Json, pos: Position)
    requires Converted(document, "").Some? && Fits(Converted(document, "").value)
    requires NodeAt(Converted(document, "").value, pos).Some?
    ensures var root := Converted(document, "").value;
            FindPos(root, NodeAt(root, pos).value.path) == Some(pos) <==> CleanWay(root, pos)
  {
    ConvertedIsTagged(document, "");
    var root := Converted(document, "").value;
    if CleanWay(root, pos) {
      CleanPathFound(root, pos);
    } else {
      FoundIsClean(root, NodeAt(root, pos).value.path);
    }
  }

  lemma FoundIsClean(v: Value, path: string)
    ensures FindPos(v, path).Some? ==>
              var pos := FindPos(v, path).value; NodeAt(v, pos).Some? && CleanWay(v, pos)
  {
    if path != "" && FindPos(v, path).Some? {
      FieldsAreFree(path, ".", 0);
      WalkIsClean(v, Fields(path, ".", 0));
    }
  }

  /** So among nodes reached by clean keys no two have the same path. */
  lemma {:induction false} PathsAreUnique(document: Json, p: Position, q: Position)
    requires Converted(document, "").Some? && Fits(Converted(document, "").value)
    requires var root := Converted(document, "").value;
             && NodeAt(root, p).Some? && NodeAt(root, q).Some? && CleanWay(root, p) && CleanWay(root, q)
             && NodeAt(root, p).value.path == NodeAt(root, q).value.path
    ensures p == q
  {
    PathRoundTrip(document, p);
    PathRoundTrip(document, q);
  }

  lemma OneMember(m: Member, path: string)
    requires m.value == JNull
    ensures var name := CString(m.name);
            var child := Value(Null, ChildPath(path, name));
            Converted(JObject([m]), path) == Some(Value(Object([Field(name, child)]), path))
  {
    var name := CString(m.name);
    var field := Field(name, Value(Null, ChildPath(path, name)));
    var members := [m];
    assert ConvertedMembers(members, 0, path).value == [];
    assert Converted(members[0].value, ChildPath(path, name)) == Some(field.value);
    var fields := ConvertedMembers(members, 1, path);
    assert fields.value == [field] && DistinctNames([field]);
    assert Converted(JObject(members), path) == Some(Value(Object(fields.value), path));
  }

  /** An empty key hides its node behind the parent: both have the same path, and the lookup finds the parent. */
  lemma {:induction false} EmptyKeyHides()
    ensures var document := JObject([Member("", JNull)]);
            && Converted(document, "").Some?
            && var root := Converted(document, "").value;
               NodeAt(root, [0]).Some? && NodeAt(root, [0]).value.path == root.path
               && FindPos(root, root.path) == Some([])
  {
    OneMember(Member("", JNull), "");
    assert First("", "\0", 0) == None;
  }

  // ---------------------------------------------------------------------------------------------
  // The node found is the document's node
  // ---------------------------------------------------------------------------------------------

  function JsonAt(node: Json, pos: Position): Option<Json> {
    if pos == [] then Some(node)
    else match node
      case JArray(items) => if pos[0] < |items| then JsonAt(items[pos[0]], pos[1..]) else None
      case JObject(members) => if pos[0] < |members| then JsonAt(members[pos[0]].value, pos[1..]) else None
      case _ => None
  }

  /** What is left of `s` before its first NUL. */
  predicate CutAtNul(s: string, t: string) { t <= s && '\0' !in t && (t == s || s[|t|] == '\0') }

  lemma NulAt(s: string, k: nat)
    ensures OccursAt(s, "\0", k) <==> k < |s| && s[k] == '\0'
  {
    var nul := "\0";
    assert nul[0] == '\0' && |nul| == 1;
    if k < |s| {
      assert s[k + 0] == s[k];
    }
  }

  /** A string that passes through a C string is cut so, and this is the only way to cut it so. */
  lemma {:induction false} CStringExactly(s: string, t: string)
    ensures t == CString(s) <==> CutAtNul(s, t)
  {
    FirstIsFirst(s, "\0", 0);
    var c := CString(s);
    forall k: nat ensures OccursAt(s, "\0", k) <==> k < |s| && s[k] == '\0' {
      NulAt(s, k);
    }
    assert CutAtNul(s, c);
    if CutAtNul(s, t) {
      assert forall k :: 0 <= k < |c| ==> c[k] in c && c[k] == s[k];
      assert forall k :: 0 <= k < |t| ==> t[k] in t && t[k] == s[k];
    }
  }

  /** The two's complement reading of 64 bits. */
  predicate SameBits(n: uint64, i: int64) { (n - i) % 0x1_0000_0000_0000_0000 == 0 }

  /** The same scalar, or containers of the same size with the same keys. */
  predicate Alike(node: Json, data: Data) {
    match node
    case JNull => data == Null
    case JBool(b) => data == Bool(b)
    case JUint(n) => data.Int? && SameBits(n, data.i)
    case JInt(i) => data == Int(i)
    case JDouble(r) => data == Double(r)
    case JString(s) => data.Str? && CutAtNul(s, data.s)
    case JArray(items) => data.Array? && |data.items| == |items|
    case JObject(members) =>
      && data.Object? && |data.fields| == |members|
      && forall i :: 0 <= i < |members| ==> CutAtNul(members[i].name, data.fields[i].name)
  }

  lemma ConvertedIsAlike(node: Json, path: string)
    requires Converted(node, path).Some?
    ensures Alike(node, Converted(node, path).value.data)
  {
    if node.JString? {
      CStringExactly(node.s, CString(node.s));
    }
    if node.JObject? {
      var members := node.members;
      forall i | 0 <= i < |members|
        ensures CutAtNul(members[i].name, ConvertedMembers(members, |members|, path).value[i].name)
      {
        MemberAt(members, |members|, path, i);
        CStringExactly(members[i].name, CString(members[i].name));
      }
    }
  }

  /** Position by position, the tree is the document. */
  lemma {:induction false} TreeMirrorsDocument(node: Json, path: string, pos: Position)
    requires Converted(node, path).Some?
    ensures var v := Converted(node, path).value;
            && (JsonAt(node, pos).Some? <==> NodeAt(v, pos).Some?)
            && (JsonAt(node, pos).Some? ==> Alike(JsonAt(node, pos).value, NodeAt(v, pos).value.data))
    decreases pos
  {
    if pos == [] {
      ConvertedIsAlike(node, path);
    } else {
      match node {
        case JArray(items) =>
          if pos[0] < |items| {
            ItemAt(items, |items|, path, pos[0]);
            TreeMirrorsDocument(items[pos[0]], ChildPath(path, Decimal(pos[0])), pos[1..]);
          }
        case JObject(members) =>
          if pos[0] < |members| {
            MemberAt(members, |members|, path, pos[0]);
            TreeMirrorsDocument(members[pos[0]].value, ChildPath(path, CString(members[pos[0]].name)), pos[1..]);
          }
        case _ =>
      }
    }
  }

  // ---------------------------------------------------------------------------------------------
  // Which documents are refused
  // ---------------------------------------------------------------------------------------------

  /** An object with two keys that are the same once they are C strings. */
  predicate RepeatsKey(node: Json) {
    && node.JObject?
    && exists i, j :: 0 <= i < j < |node.members| && CString(node.members[i].name) == CString(node.members[j].name)
  }

  predicate RepeatsAt(node: Json, pos: Position) {
    JsonAt(node, pos).Some? && RepeatsKey(JsonAt(node, pos).value)
  }

  /** Conversion fails exactly when some object of the document, however deep, has a key twice. */
  lemma {:induction false} RefusedExactly(node: Json, path: string)
    ensures Converted(node, path).None? <==> exists pos :: RepeatsAt(node, pos)
  {
    if Converted(node, path).None? {
      var pos := Culprit(node, path);
    } else {
      forall pos ensures !RepeatsAt(node, pos) {
        NoRepeatAt(node, path, pos);
      }
    }
  }

  lemma {:induction false} TaggedBelow(v: Value, base: string, pos: Position)
    requires Tagged(v, base) && NodeAt(v, pos).Some?
    ensures Tagged(NodeAt(v, pos).value, NodeAt(v, pos).value.path)
  {
    if pos != [] {
      TaggedBelow(Child(v, pos[0]), ChildPath(base, ChildName(v, pos[0])), pos[1..]);
    }
  }

  lemma NoRepeatAt(node: Json, path: string, pos: Position)
    requires Converted(node, path).Some?
    ensures !RepeatsAt(node, pos)
  {
    var v := Converted(node, path).value;
    TreeMirrorsDocument(node, path, pos);
    if JsonAt(node, pos).Some? {
      ConvertedIsTagged(node, path);
      TaggedBelow(v, path, pos);
      DistinctMembers(JsonAt(node, pos).value, NodeAt(v, pos).value.data);
    }
  }

  lemma DistinctMembers(node: Json, data: Data)
    requires Alike(node, data) && (data.Object? ==> DistinctNames(data.fields))
    ensures !RepeatsKey(node)
  {
    if node.JObject? {
      forall i | 0 <= i < |node.members| ensures data.fields[i].name == CString(node.members[i].name) {
        CStringExactly(node.members[i].name, data.fields[i].name);
      }
    }
  }

  lemma {:induction false} NoneItem(items: seq<Json>, n: nat, path: string) returns (i: nat)
    requires n <= |items| && ConvertedItems(items, n, path).None?
    ensures i < n && Converted(items[i], ChildPath(path, Decimal(i))).None?
  {
    if Converted(items[n - 1], ChildPath(path, Decimal(n - 1))).None? {
      i := n - 1;
    } else {
      i := NoneItem(items, n - 1, path);
    }
  }

  lemma {:induction false} NoneMember(members: seq<Member>, n: nat, path: string) returns (i: nat)
    requires n <= |members| && ConvertedMembers(members, n, path).None?
    ensures i < n && Converted(members[i].value, ChildPath(path, CString(members[i].name))).None?
  {
    if Converted(members[n - 1].value, ChildPath(path, CString(members[n - 1].name))).None? {
      i := n - 1;
    } else {
      i := NoneMember(members, n - 1, path);
    }
  }

  /** The object that makes a conversion fail. */
  lemma {:induction false} Culprit(node: Json, path: string) returns (pos: Position)
    requires Converted(node, path).None?
    ensures RepeatsAt(node, pos)
  {
    match node {
      case JArray(items) =>
        var i := NoneItem(items, |items|, path);
        var below := Culprit(items[i], ChildPath(path, Decimal(i)));
        pos := [i] + below;
        assert pos[1..] == below;
      case JObject(members) =>
        if ConvertedMembers(members, |members|, path).None? {
          var i := NoneMember(members, |members|, path);
          var below := Culprit(members[i].value, ChildPath(path, CString(members[i].name)));
          pos := [i] + below;
          assert pos[1..] == below;
        } else {
          var fields := ConvertedMembers(members, |members|, path).value;
          var i, j :| 0 <= i < j < |fields| && fields[i].name == fields[j].name;
          MemberAt(members, |members|, path, i);
          MemberAt(members, |members|, path, j);
          pos := [];
          assert CString(members[i].name) == CString(members[j].name);
        }
    }
  }
}
