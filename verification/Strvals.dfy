/** The strvals parser of pkg/util/strvals/parser.go, as functions of the text that is left:
    lines such as outer.inner=1,list[0].name=x set values in a nested map. */
module Strvals {
  import opened Prelude

  datatype Value =
    | Null | Bool(b: bool) | Int(i: int) | Str(s: string)
    | List(items: seq<Value>) | Map(entries: map<string, Value>)

  type Entries = map<string, Value>

  /** How a step of the parser ends: no error, io.EOF, another error, or a panic that the
      enclosing key recovers from. */
  datatype End = More | Eof | Fail | Panic

  // ------------------------------------------------------------------ runes

  /** What runesUntil reads: the text, the rune it stopped at unless the input ended, the rest. */
  datatype Read = Read(text: string, last: Option<char>, rest: string)

  function RunesUntil(s: string, stop: set<char>): (r: Read)
    ensures |r.rest| <= |s| && (r.last.Some? ==> |r.rest| < |s| && r.last.value in stop)
    ensures |r.text| + |r.rest| <= |s|
  {
    if s == "" then Read("", None, "")
    else if s[0] in stop then Read("", Some(s[0]), s[1..])
    else if s[0] == '\\' then
      if |s| == 1 then Read("", None, "")
      else
        var r := RunesUntil(s[2..], stop);
        r.(text := [s[1]] + r.text)
    else
      var r := RunesUntil(s[1..], stop);
      r.(text := [s[0]] + r.text)
  }

  const KEYEND: set<char> := {'=', '[', ',', '.'}
  const ITEMEND: set<char> := {'[', '.', '='}

  // ------------------------------------------------------------------ numbers and literals

  const MAXINT: int := 0x7fff_ffff_ffff_ffff

  predicate IsDigit(c: char) {
    '0' <= c <= '9'
  }

  function Digits(s: string): (r: Option<nat>)
  {
    if s == "" then Some(0)
    else
      var n := |s| - 1;
      var high := Digits(s[..n]);
      if high.None? || !IsDigit(s[n]) then None else Some(10 * high.value + (s[n] as int - '0' as int))
  }

  /** strconv's signed decimal numbers of 64 bits. */
  function ParseInt(s: string): Option<int> {
    if s == "" then None
    else
      var signed := s[0] == '-' || s[0] == '+';
      var digits := if signed then s[1..] else s;
      if digits == "" || Digits(digits).None? then None
      else
        var n: int := if s[0] == '-' then 0 - Digits(digits).value else Digits(digits).value;
        if -MAXINT - 1 <= n <= MAXINT then Some(n) else None
  }

  /** Case folding, as far as true, false and null can tell. */
  function Fold(c: char): char {
    if 'A' <= c <= 'Z' then (c as int + 32) as char
    else if c == '\U{017F}' then 's'
    else c
  }

  predicate EqualFold(s: string, t: string) {
    |s| == |t| && forall i | 0 <= i < |s| :: Fold(s[i]) == Fold(t[i])
  }

  /** typedVal: with st every value is a string. */
  function TypedVal(s: string, st: bool): Value {
    if st then Str(s)
    else if EqualFold(s, "true") then Bool(true)
    else if EqualFold(s, "false") then Bool(false)
    else if EqualFold(s, "null") then Null
    else if s == "0" then Int(0)
    else if s != "" && s[0] != '0' && ParseInt(s).Some? then Int(ParseInt(s).value)
    else Str(s)
  }

  // ------------------------------------------------------------------ values

  datatype ValueRead = ValueRead(value: Option<Value>, rest: string, end: End)

  /** The elements of a list up to its closing brace; a comma after it belongs to it. */
  function ListRead(s: string, items: seq<Value>, st: bool): (r: ValueRead)
    ensures |r.rest| <= |s| && !r.end.Eof? && !r.end.Panic? && (r.end.More? ==> r.value.Some?) && (r.value.Some? ==> r.value.value.List?)
    decreases |s|
  {
    var r := RunesUntil(s, {',', '}'});
    if r.last.None? then ValueRead(None, r.rest, Fail)
    else
      var items' := items + [TypedVal(r.text, st)];
      if r.last == Some(',') then ListRead(r.rest, items', st)
      else ValueRead(Some(List(items')), if r.rest != "" && r.rest[0] == ',' then r.rest[1..] else r.rest, More)
  }

  /** What follows an equals sign: valList, and val where that is not a list. Without a rune
      left the value is empty and the input has ended. */
  function ReadValue(s: string, st: bool): (r: ValueRead)
    ensures |r.rest| <= |s| && (r.end.More? || r.end.Eof? ==> r.value.Some?)
    ensures !r.end.Panic? && (s != "" ==> !r.end.Eof?)
  {
    if s == "" then ValueRead(Some(Str("")), "", Eof)
    else if s[0] == '{' then ListRead(s[1..], [], st)
    else
      var r := RunesUntil(s, {','});
      ValueRead(Some(TypedVal(r.text, st)), r.rest, More)
  }

  // ------------------------------------------------------------------ keys and items

  datatype KeyRead = KeyRead(data: Entries, rest: string, end: End)
  datatype ItemRead = ItemRead(list: seq<Value>, rest: string, end: End)

  /** An empty key is not set. */
  function Set(data: Entries, k: string, v: Value): Entries {
    if k == "" then data else data[k := v]
  }

  function SetIndex(list: seq<Value>, i: nat, v: Value): (r: seq<Value>)
    ensures |r| == (if i < |list| then |list| else i + 1) && r[i] == v
    ensures forall j :: 0 <= j < |r| && j != i ==> r[j] == if j < |list| then list[j] else Null
  {
    if i < |list| then list[i := v] else list + seq(i - |list|, _ => Null) + [v]
  }

  /** A map or list found under an empty key is changed in place, but never replaced. */
  function SetList(data: Entries, k: string, list: seq<Value>): Entries {
    if k != "" then data[k := List(list)]
    else if k in data && data[k].List? && |data[k].items| == |list| then data[k := List(list)]
    else data
  }

  function Key(s: string, data: Entries, st: bool): (r: KeyRead)
    ensures |r.rest| <= |s| && (r.end.More? ==> |r.rest| < |s|) && !r.end.Panic?
    decreases |s|
  {
    var r := RunesUntil(s, KEYEND);
    var k := r.text;
    match r.last
    case None => KeyRead(data, r.rest, if k == "" then Eof else Fail)
    case Some(c) =>
      if c == '[' then
        var x := RunesUntil(r.rest, {']'});
        if x.last.None? || ParseInt(x.text).None? then KeyRead(data, x.rest, Fail)
        else if k in data && !data[k].List? then KeyRead(data, x.rest, Fail)
        else
          var l := Item(x.rest, if k in data then data[k].items else [], ParseInt(x.text).value, st);
          if l.end.Panic? then KeyRead(data, l.rest, Fail) else KeyRead(SetList(data, k, l.list), l.rest, l.end)
      else if c == '=' then
        var v := ReadValue(r.rest, st);
        KeyRead(if v.end.Fail? then data else Set(data, k, v.value.value), v.rest, v.end)
      else if c == ',' then KeyRead(Set(data, k, Str("")), r.rest, Fail)
      else if k in data && !data[k].Map? then KeyRead(data, r.rest, Fail)
      else
        var inner := Key(r.rest, if k in data then data[k].entries else map[], st);
        if inner.data == map[] then KeyRead(data, inner.rest, Fail)
        else KeyRead(if k in data then data[k := Map(inner.data)] else Set(data, k, Map(inner.data)), inner.rest, inner.end)
  }

  /** listItem. Where it fails the list may have been changed, but has kept its length. */
  function Item(s: string, list: seq<Value>, i: int, st: bool): (r: ItemRead)
    ensures |r.rest| <= |s| && (r.end.More? ==> |r.rest| < |s|)
    ensures !r.end.More? ==> |r.list| == |list|
    decreases |s|
  {
    if i < 0 then ItemRead(list, s, Fail)
    else
      var r := RunesUntil(s, ITEMEND);
      if r.text != "" then ItemRead(list, r.rest, Fail)
      else if r.last.None? then ItemRead(list, r.rest, Eof)
      else if r.last == Some('=') then
        var v := ReadValue(r.rest, st);
        if v.end.Fail? then ItemRead(list, v.rest, Fail) else ItemRead(SetIndex(list, i, v.value.value), v.rest, More)
      else if r.last == Some('[') then
        var x := RunesUntil(r.rest, {']'});
        if x.last.None? || ParseInt(x.text).None? then ItemRead(list, x.rest, Fail)
        else if i < |list| && !list[i].Null? && !list[i].List? then ItemRead(list, x.rest, Panic)
        else
          var found := i < |list| && list[i].List?;
          var inner := Item(x.rest, if found then list[i].items else [], ParseInt(x.text).value, st);
          if inner.end.More? then ItemRead(SetIndex(list, i, List(inner.list)), inner.rest, More)
          else ItemRead(if found then list[i := List(inner.list)] else list, inner.rest, inner.end)
      else
        var inner := Key(r.rest, if i < |list| && list[i].Map? then list[i].entries else map[], st);
        if inner.end.More? then ItemRead(SetIndex(list, i, Map(inner.data)), inner.rest, More)
        else ItemRead(if i < |list| then list[i := Map(inner.data)] else list, inner.rest, inner.end)
  }

  datatype Parsed = Parsed(data: Entries, ok: bool)

  function Parse(s: string, data: Entries, st: bool): Parsed
    decreases |s|
  {
    var r := Key(s, data, st);
    match r.end
    case More => Parse(r.rest, r.data, st)
    case Eof => Parsed(r.data, true)
    case _ => Parsed(r.data, false)
  }
}
