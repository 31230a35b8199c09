/**
 The configuration tree: how it is built from a JSON document, the dotted path recorded in every node,
 and looking nodes up by path. A node is identified by its position, the list of child numbers that
 leads to it from the root.
 */
module ConfigTree {
  import opened Text
  import opened Wrappers

  type uint64 = n: nat | n < 0x1_0000_0000_0000_0000
  type int64 = n: int | -0x8000_0000_0000_0000 <= n < 0x8000_0000_0000_0000

  datatype Json =
    | JNull | JBool(b: bool) | JUint(n: uint64) | JInt(i: int64) | JDouble(r: real) | JString(s: string)
    | JArray(items: seq<Json>) | JObject(members: seq<Member>)
  datatype Member = Member(name: string, value: Json)

  datatype Value = Value(data: Data, path: string)
  datatype Data =
    | Null | Bool(b: bool) | Int(i: int64) | Double(r: real) | Str(s: string)
    | Array(items: seq<Value>) | Object(fields: seq<Field>)
  datatype Field = Field(name: string, value: Value)

  // ---------------------------------------------------------------------------------------------
  // Building the tree
  // ---------------------------------------------------------------------------------------------

  /** What is left of a string that passes through a C string. */
  function CString(s: string): string {
    match First(s, "\0", 0)
    case None => s
    case Some(k) => s[..k]
  }

  /** A cast from unsigned to signed 64 bits. */
  function ToSigned(n: uint64): int64 { if n < 0x8000_0000_0000_0000 then n else n - 0x1_0000_0000_0000_0000 }

  function ChildPath(parent: string, key: string): string { if parent == "" then key else parent + "." + key }

  function Digit(n: nat): char
    requires n < 10
  {
    '0' + n as char
  }

  function Decimal(n: nat): string { if n < 10 then [Digit(n)] else Decimal(n / 10) + [Digit(n % 10)] }

  predicate DistinctNames(fields: seq<Field>) {
    forall i, j :: 0 <= i < j < |fields| ==> fields[i].name != fields[j].name
  }

  /** The tree for a document node, unless an object below it has a key twice. */
  function Converted(node: Json, path: string): Option<Value>
    decreases node, 0
  {
    match node
    case JNull => Some(Value(Null, path))
    case JBool(b) => Some(Value(Bool(b), path))
    case JUint(n) => Some(Value(Int(ToSigned(n)), path))
    case JInt(i) => Some(Value(Int(i), path))
    case JDouble(r) => Some(Value(Double(r), path))
    case JString(s) => Some(Value(Str(CString(s)), path))
    case JArray(items) =>
      (match ConvertedItems(items, |items|, path)
       case None => None
       case Some(values) => Some(Value(Array(values), path)))
    case JObject(members) =>
      match ConvertedMembers(members, |members|, path)
      case None => None
      case Some(fields) => if DistinctNames(fields) then Some(Value(Object(fields), path)) else None
  }

  function ConvertedItems(items: seq<Json>, n: nat, path: string): (r: Option<seq<Value>>)
    requires n <= |items|
    ensures r.Some? ==> |r.value| == n
    decreases items, n
  {
    if n == 0 then Some([])
    else
      var before := ConvertedItems(items, n - 1, path);
      var last := Converted(items[n - 1], ChildPath(path, Decimal(n - 1)));
      if before.None? || last.None? then None else Some(before.value + [last.value])
  }

  function ConvertedMembers(members: seq<Member>, n: nat, path: string): (r: Option<seq<Field>>)
    requires n <= |members|
    ensures r.Some? ==> |r.value| == n
    decreases members, n
  {
    if n == 0 then Some([])
    else
      var before := ConvertedMembers(members, n - 1, path);
      var name := CString(members[n - 1].name);
      var last := Converted(members[n - 1].value, ChildPath(path, name));
      if before.None? || last.None? then None else Some(before.value + [Field(name, last.value)])
  }

  datatype ConfigResult<T> = Good(value: T) | Duplicate(at: string) | NotLoaded | RootNotObject

  predicate Clash(fields: seq<Field>, i: nat, j: nat)
    requires i < |fields| && j < |fields|
  {
    fields[i].name == fields[j].name
  }

  /** The place an error about a field names. */
  function Where(field: Field, path: string): string {
    if field.value.path == "" then ChildPath(path, field.name) else field.value.path
  }

  /** `make_object`: refuses the first pair of fields with the same name, naming the second. */
  method MakeObject(fields: seq<Field>, path: string) returns (r: ConfigResult<Value>)
    ensures r.Good? <==> DistinctNames(fields)
    ensures r.Good? ==> r.value == Value(Object(fields), path)
    ensures !r.Good? ==>
              r.Duplicate?
              && exists i, j :: 0 <= i < j < |fields| && Clash(fields, i, j) && r.at == Where(fields[j], path)
  {
    for i := 0 to |fields|
      invariant forall k, j :: 0 <= k < i && k < j < |fields| ==> fields[k].name != fields[j].name
    {
      for j := i + 1 to |fields|
        invariant forall k :: i < k < j ==> fields[i].name != fields[k].name
      {
        if fields[i].name == fields[j].name {
          assert Clash(fields, i, j);
          return Duplicate(Where(fields[j], path));
        }
      }
    }
    return Good(Value(Object(fields), path));
  }

  /** `convert`. */
  method Convert(node: Json, path: string) returns (r: ConfigResult<Value>)
    ensures r.Good? || r.Duplicate?
    ensures r.Good? <==> Converted(node, path).Some?
    ensures r.Good? ==> r.value == Converted(node, path).value
    decreases node
  {
    match node
    case JNull => r := Good(Value(Null, path));
    case JBool(b) => r := Good(Value(Bool(b), path));
    case JUint(n) => r := Good(Value(Int(ToSigned(n)), path));
    case JInt(i) => r := Good(Value(Int(i), path));
    case JDouble(d) => r := Good(Value(Double(d), path));
    case JString(s) => r := Good(Value(Str(CString(s)), path));
    case JArray(items) =>
      var values: seq<Value> := [];
      for n := 0 to |items|
        invariant ConvertedItems(items, n, path) == Some(values)
      {
        var item := Convert(items[n], ChildPath(path, Decimal(n)));
        if !item.Good? {
          NoneOfItems(items, n + 1, |items|, path);
          return item;
        }
        values := values + [item.value];
      }
      r := Good(Value(Array(values), path));
    case JObject(members) =>
      var fields: seq<Field> := [];
      for n := 0 to |members|
        invariant ConvertedMembers(members, n, path) == Some(fields)
      {
        var name := CString(members[n].name);
        var member := Convert(members[n].value, ChildPath(path, name));
        if !member.Good? {
          NoneOfMembers(members, n + 1, |members|, path);
          return member;
        }
        fields := fields + [Field(name, member.value)];
      }
      r := MakeObject(fields, path);
  }

  lemma {:induction false} NoneOfItems(items: seq<Json>, n: nat, m: nat, path: string)
    requires n <= m <= |items| && ConvertedItems(items, n, path).None?
    ensures ConvertedItems(items, m, path).None?
  {
    if n < m {
      NoneOfItems(items, n, m - 1, path);
    }
  }

  lemma {:induction false} NoneOfMembers(members: seq<Member>, n: nat, m: nat, path: string)
    requires n <= m <= |members| && ConvertedMembers(members, n, path).None?
    ensures ConvertedMembers(members, m, path).None?
  {
    if n < m {
      NoneOfMembers(members, n, m - 1, path);
    }
  }

  // ---------------------------------------------------------------------------------------------
  // Positions
  // ---------------------------------------------------------------------------------------------

  type Position = seq<nat>

  function Degree(v: Value): nat {
    match v.data
    case Array(items) => |items|
    case Object(fields) => |fields|
    case _ => 0
  }

  function Child(v: Value, i: nat): (c: Value)
    requires i < Degree(v)
    ensures c < v
  {
    match v.data
    case Array(items) => items[i]
    case Object(fields) => assert fields[i] < v; fields[i].value
  }

  function ChildName(v: Value, i: nat): string
    requires i < Degree(v)
  {
    match v.data
    case Array(_) => Decimal(i)
    case Object(fields) => fields[i].name
  }

  function NodeAt(v: Value, pos: Position): Option<Value> {
    if pos == [] then Some(v)
    else if pos[0] < Degree(v) then NodeAt(Child(v, pos[0]), pos[1..])
    else None
  }

  /** The keys and numbers on the way to a node. */
  function Names(v: Value, pos: Position): seq<string>
    requires NodeAt(v, pos).Some?
  {
    if pos == [] then [] else [ChildName(v, pos[0])] + Names(Child(v, pos[0]), pos[1..])
  }

  predicate CleanName(name: string) { name != "" && !Contains(name, ".") }

  predicate CleanWay(v: Value, pos: Position)
    requires NodeAt(v, pos).Some?
  {
    pos == [] || (CleanName(ChildName(v, pos[0])) && CleanWay(Child(v, pos[0]), pos[1..]))
  }

  // ---------------------------------------------------------------------------------------------
  // Looking up
  // ---------------------------------------------------------------------------------------------

  const MAX_DIGITS := 19

  predicate IsDigit(c: char) { '0' <= c <= '9' }

  predicate IsIndex(s: string) { s != "" && forall i :: 0 <= i < |s| ==> IsDigit(s[i]) }

  function DigitValue(c: char): nat
    requires IsDigit(c)
  {
    c as nat - '0' as nat
  }

  function Number(s: string): nat
    requires forall i :: 0 <= i < |s| ==> IsDigit(s[i])
  {
    if s == "" then 0 else 10 * Number(s[..|s| - 1]) + DigitValue(s[|s| - 1])
  }

  /** The first field of that name at or after `from`. */
  function FieldNamed(fields: seq<Field>, name: string, from: nat): (r: Option<nat>)
    ensures r.Some? ==> from <= r.value < |fields| && fields[r.value].name == name
    decreases |fields| - from
  {
    if from >= |fields| then None
    else if fields[from].name == name then Some(from)
    else FieldNamed(fields, name, from + 1)
  }

  /** The child one path segment leads to. */
  function ChildFor(v: Value, segment: string): (r: Option<nat>)
    ensures r.Some? ==> r.value < Degree(v)
  {
    match v.data
    case Array(items) =>
      if IsIndex(segment) && |segment| <= MAX_DIGITS && Number(segment) < |items| then Some(Number(segment)) else None
    case Object(fields) => FieldNamed(fields, segment, 0)
    case _ => None
  }

  /** The recursive walk along the segments. */
  function Walk(v: Value, segments: seq<string>): Option<Position> {
    if segments == [] then Some([])
    else if segments[0] == "" then None
    else match ChildFor(v, segments[0])
      case None => None
      case Some(i) => Under(i, Walk(Child(v, i), segments[1..]))
  }

  function Under(i: nat, pos: Option<Position>): Option<Position> {
    match pos
    case None => None
    case Some(p) => Some([i] + p)
  }

  function FindPos(v: Value, path: string): Option<Position> {
    if path == "" then Some([]) else Walk(v, Fields(path, ".", 0))
  }

  function Beneath(at: Position, pos: Option<Position>): Option<Position> {
    match pos
    case None => None
    case Some(p) => Some(at + p)
  }

  class Config {
    var root: Value
    var loaded: bool

    constructor ()
      ensures !loaded
    {
      root, loaded := Value(Null, ""), false;
    }

    /** `load_string`, from the document on; a refused document, or a root that is no object, changes nothing. */
    method Load(document: Json) returns (r: ConfigResult<()>)
      modifies this
      ensures r == RootNotObject <==> !document.JObject?
      ensures r.Good? <==> document.JObject? && Converted(document, "").Some?
      ensures r.Good? ==> loaded && root == Converted(document, "").value
      ensures !r.Good? ==> loaded == old(loaded) && root == old(root)
    {
      if !document.JObject? {
        return RootNotObject;
      }
      var tree := Convert(document, "");
      match tree
      case Good(v) =>
        root, loaded := v, true;
        r := Good(());
      case Duplicate(at) => r := Duplicate(at);
    }

    /** `find`: the loop over the segments is the recursive walk, and what it returns is the node there. */
    method Find(path: string) returns (r: ConfigResult<Option<Value>>, ghost at: Option<Position>)
      ensures r.Good? <==> loaded
      ensures r.Good? ==> at == FindPos(root, path)
      ensures r.Good? ==> r.value == match at case None => None case Some(pos) => NodeAt(root, pos)
    {
      if !loaded {
        return NotLoaded, None;
      }
      if path == "" {
        return Good(Some(root)), Some([]);
      }
      var found;
      found, at := Lookup(root, path);
      r := Good(found);
    }
  }

  /** The loop of `find`. */
  method Lookup(root: Value, path: string) returns (found: Option<Value>, ghost at: Option<Position>)
    requires path != ""
    ensures at == FindPos(root, path)
    ensures found == match at case None => None case Some(pos) => NodeAt(root, pos)
  {
    var current := root;
    ghost var here: Position := [];
    var position := 0;
    BeneathRoot(FindPos(root, path));
    while true
      invariant OnTheWay(root, path, here, current, position)
      decreases |path| - position
    {
      var dot := Text.Find(path, ".", position);
      var segment := if dot.None? then path[position..] else path[position..dot.value];
      OneStep(root, path, here, current, position);
      if segment == "" {
        return None, None;
      }
      var next := Descend(current, segment);
      if next.None? {
        return None, None;
      }
      current := Child(current, next.value);
      here := here + [next.value];
      if dot.None? {
        return Some(current), Some(here);
      }
      position := dot.value + 1;
    }
  }

  /** The loop has reached `current` and has the path from `position` on to go. */
  predicate OnTheWay(root: Value, path: string, here: Position, current: Value, position: nat) {
    && position <= |path| && path != "" && NodeAt(root, here) == Some(current)
    && FindPos(root, path) == Beneath(here, Walk(current, Fields(path, ".", position)))
  }

  lemma OneStep(root: Value, path: string, here: Position, current: Value, position: nat)
    requires OnTheWay(root, path, here, current, position)
    ensures var segment := Segment(path, position);
            if segment == "" || ChildFor(current, segment).None? then FindPos(root, path) == None
            else
              var i := ChildFor(current, segment).value;
              match First(path, ".", position)
              case None =>
                FindPos(root, path) == Some(here + [i]) && NodeAt(root, here + [i]) == Some(Child(current, i))
              case Some(dot) => OnTheWay(root, path, here + [i], Child(current, i), dot + 1)
  {
    WalkOne(current, path, position);
    var segment := Segment(path, position);
    if segment != "" && ChildFor(current, segment).Some? {
      var i := ChildFor(current, segment).value;
      NodeBelow(root, here, i);
      if First(path, ".", position).Some? {
        BeneathUnder(here, i, Walk(Child(current, i), Fields(path, ".", First(path, ".", position).value + 1)));
      }
    }
  }

  /** The segment of a path that starts at `position`. */
  function Segment(path: string, position: nat): string
    requires position <= |path|
  {
    match First(path, ".", position)
    case None => path[position..]
    case Some(dot) => path[position..dot]
  }

  /** The walk takes one segment and goes on after the dot, if there is one. */
  lemma WalkOne(v: Value, path: string, position: nat)
    requires position <= |path|
    ensures var rest := Walk(v, Fields(path, ".", position)); var segment := Segment(path, position);
            if segment == "" || ChildFor(v, segment).None? then rest == None
            else
              var i := ChildFor(v, segment).value;
              match First(path, ".", position)
              case None => rest == Some([i])
              case Some(dot) => rest == Under(i, Walk(Child(v, i), Fields(path, ".", dot + 1)))
  {
    var segments := Fields(path, ".", position);
    assert segments[0] == Segment(path, position);
    match First(path, ".", position) {
      case None =>
        assert segments[1..] == [];
        assert forall i: nat :: [i] + [] == [i];
      case Some(dot) =>
        assert segments[1..] == Fields(path, ".", dot + 1);
    }
  }

  /** One turn of the loop in `find`. */
  method Descend(current: Value, segment: string) returns (next: Option<nat>)
    requires segment != ""
    ensures next == ChildFor(current, segment)
  {
    match current.data
    case Array(items) =>
      if !IsIndex(segment) || |segment| > MAX_DIGITS {
        return None;
      }
      var index := Number(segment);
      if index >= |items| {
        return None;
      }
      return Some(index);
    case Object(fields) =>
      var i := 0;
      while i < |fields|
        invariant i <= |fields| && FieldNamed(fields, segment, 0) == FieldNamed(fields, segment, i)
      {
        if fields[i].name == segment {
          return Some(i);
        }
        i := i + 1;
      }
      return None;
    case _ =>
      return None;
  }

  lemma {:induction false} NodeBelow(v: Value, pos: Position, i: nat)
    requires NodeAt(v, pos).Some? && i < Degree(NodeAt(v, pos).value)
    ensures NodeAt(v, pos + [i]) == Some(Child(NodeAt(v, pos).value, i))
  {
    if pos != [] {
      NodeBelow(Child(v, pos[0]), pos[1..], i);
      assert (pos + [i])[1..] == pos[1..] + [i];
    }
  }

  lemma BeneathRoot(pos: Option<Position>)
    ensures Beneath([], pos) == pos
  {
    if pos.Some? {
      assert [] + pos.value == pos.value;
    }
  }

  lemma BeneathUnder(at: Position, i: nat, pos: Option<Position>)
    ensures Beneath(at, Under(i, pos)) == Beneath(at + [i], pos)
  {
    if pos.Some? {
      assert at + ([i] + pos.value) == at + [i] + pos.value;
    }
  }
}
