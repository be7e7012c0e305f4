/** Printing a tree leaf by leaf and parsing the line gives the tree back. */
module StrvalsRoundTrip {
  import opened Prelude
  import opened Strvals

  // ------------------------------------------------------------------ writing under a path

  datatype Step = Field(key: string) | Index(i: nat)
  type Path = seq<Step>

  /** What a list element is, to the step that comes next: a step into a map takes over anything
      that is not one, a step into a list takes over null. */
  function Seen(list: seq<Value>, i: nat, next: Step): Option<Value> {
    if i >= |list| then None
    else if next.Field? then (if list[i].Map? then Some(list[i]) else None)
    else if list[i].Null? then None
    else Some(list[i])
  }

  /** The value at a place once v is written below it under path p; None if a value on the way
      is not what the path asks for. */
  function Grow(old_: Option<Value>, p: Path, v: Value): Option<Value>
    decreases |p|
  {
    if p == [] then Some(v)
    else
      match p[0]
      case Field(k) =>
        if old_.Some? && !old_.value.Map? then None
        else
          var m := if old_.Some? then old_.value.entries else map[];
          match Grow(if k in m then Some(m[k]) else None, p[1..], v) {
            case None => None
            case Some(x) => Some(Map(m[k := x]))
          }
      case Index(i) =>
        if old_.Some? && !old_.value.List? then None
        else
          var xs := if old_.Some? then old_.value.items else [];
          match Grow(if |p| == 1 then None else Seen(xs, i, p[1]), p[1..], v) {
            case None => None
            case Some(x) => Some(List(SetIndex(xs, i, x)))
          }
  }

  // ------------------------------------------------------------------ printing

  const SPECIAL: set<char> := {'\\', '=', '[', ',', '.', '{'}

  function EscapeIn(s: string, special: set<char>): string {
    if s == "" then "" else (if s[0] in special then ['\\', s[0]] else [s[0]]) + EscapeIn(s[1..], special)
  }

  function Escape(s: string): string {
    EscapeIn(s, SPECIAL)
  }

  function Decimal(n: nat): string {
    (if n < 10 then "" else Decimal(n / 10)) + [DigitOf(n % 10)]
  }

  function DigitOf(d: nat): (c: char)
    requires d < 10
    ensures IsDigit(c) && c as int - '0' as int == d
  {
    (d + '0' as int) as char
  }

  function Steps(p: Path): string {
    if p == [] then ""
    else (match p[0] case Field(k) => "." + Escape(k) case Index(i) => "[" + Decimal(i) + "]") + Steps(p[1..])
  }

  /** The path of a leaf, from its first key on. */
  function PathText(p: Path): string
    requires p != [] && p[0].Field?
  {
    Escape(p[0].key) + Steps(p[1..])
  }

  // ------------------------------------------------------------------ reading back what is escaped

  lemma {:induction false} EscapedInReads(x: string, special: set<char>, tail: string, stop: set<char>)
    requires tail != "" && tail[0] in stop && stop <= special && '\\' in special && '\\' !in stop
    ensures RunesUntil(EscapeIn(x, special) + tail, stop) == Read(x, Some(tail[0]), tail[1..])
  {
    var s := EscapeIn(x, special) + tail;
    if x == "" {
      assert s == tail;
    } else {
      EscapedInReads(x[1..], special, tail, stop);
      var more := EscapeIn(x[1..], special) + tail;
      if x[0] in special {
        assert s == ['\\', x[0]] + more && s[2..] == more;
      } else {
        assert s == [x[0]] + more && s[1..] == more;
      }
    }
  }

  lemma EscapedReads(x: string, tail: string, stop: set<char>)
    requires tail != "" && tail[0] in stop && stop <= SPECIAL && '\\' !in stop
    ensures RunesUntil(Escape(x) + tail, stop) == Read(x, Some(tail[0]), tail[1..])
  {
    EscapedInReads(x, SPECIAL, tail, stop);
  }

  lemma OneMoreDigit(s: string, c: char)
    requires Digits(s).Some? && IsDigit(c)
    ensures Digits(s + [c]) == Some(10 * Digits(s).value + (c as int - '0' as int))
  {
    assert (s + [c])[..|s|] == s;
  }

  lemma OneDigit(c: char)
    requires IsDigit(c)
    ensures Digits([c]) == Some(c as int - '0' as int)
  {
    assert [c][..0] == "";
  }

  predicate AllDigits(s: string) {
    forall i :: 0 <= i < |s| ==> IsDigit(s[i])
  }

  lemma DecimalSteps(n: nat)
    ensures n < 10 ==> Decimal(n) == [DigitOf(n)]
    ensures n >= 10 ==> Decimal(n) == Decimal(n / 10) + [DigitOf(n % 10)] && n == 10 * (n / 10) + n % 10
  {
  }

  lemma {:induction false} DecimalReads(n: nat)
    ensures Digits(Decimal(n)) == Some(n) && Decimal(n) != "" && AllDigits(Decimal(n))
  {
    hide Digits, Decimal, IsDigit;
    DecimalSteps(n);
    if n < 10 {
      OneDigit(DigitOf(n));
    } else {
      DecimalReads(n / 10);
      OneMoreDigit(Decimal(n / 10), DigitOf(n % 10));
    }
  }

  lemma IndexParses(n: nat)
    requires n <= MAXINT
    ensures ParseInt(Decimal(n)) == Some(n)
  {
    DecimalReads(n);
  }

  lemma {:induction false} NoLeadingZero(n: nat)
    requires n > 0
    ensures Decimal(n) != "" && Decimal(n)[0] != '0' && IsDigit(Decimal(n)[0])
  {
    hide Decimal;
    DecimalSteps(n);
    if n >= 10 {
      NoLeadingZero(n / 10);
    }
  }

  function ShowInt(n: int): string {
    if n < 0 then "-" + Decimal(0 - n) else Decimal(n)
  }

  /** Without forced strings every 64-bit integer, written out, is read as that integer. */
  lemma IntegersReadBack(n: int)
    requires -MAXINT - 1 <= n <= MAXINT
    ensures TypedVal(ShowInt(n), false) == Int(n)
  {
    var s := ShowInt(n);
    hide Decimal, Digits;
    if n == 0 {
      ZeroIsZero();
    } else if n > 0 {
      NoLeadingZero(n);
      DecimalReads(n);
      assert s == Decimal(n);
    } else {
      NoLeadingZero(0 - n);
      DecimalReads(0 - n);
      assert s[0] == '-' && s[1..] == Decimal(0 - n);
    }
  }

  lemma ZeroIsZero()
    ensures ShowInt(0) == "0"
  {
  }

  lemma {:induction false} PlainReads(x: string, tail: string, stop: set<char>)
    requires tail != "" && tail[0] in stop && '\\' !in stop && forall i :: 0 <= i < |x| ==> x[i] !in stop && x[i] != '\\'
    ensures RunesUntil(x + tail, stop) == Read(x, Some(tail[0]), tail[1..])
  {
    if x == "" {
      assert x + tail == tail;
    } else {
      PlainReads(x[1..], tail, stop);
      assert (x + tail)[1..] == x[1..] + tail;
    }
  }

  lemma IndexReads(n: nat, rest: string)
    requires n <= MAXINT
    ensures var r := RunesUntil(Decimal(n) + ("]" + rest), {']'});
            r.last == Some(']') && r.rest == rest && ParseInt(r.text) == Some(n)
  {
    DecimalReads(n);
    PlainReads(Decimal(n), "]" + rest, {']'});
    IndexParses(n);
  }

  // ------------------------------------------------------------------ one assignment

  ghost predicate WellStep(step: Step) {
    match step
    case Field(k) => k != ""
    case Index(i) => i <= MAXINT
  }

  ghost predicate WellPath(p: Path) {
    forall j :: 0 <= j < |p| ==> WellStep(p[j])
  }

  /** The text after an equals sign gives v, not at the end of the input. */
  ghost predicate Gives(t: string, v: Value, rest: string, st: bool) {
    t != "" && ReadValue(t, st) == ValueRead(Some(v), rest, More)
  }

  lemma Regroup(a: string, b: string, c: string, d: string)
    ensures a + b + c + d == a + (b + c + d)
    ensures a + b + c + d == a + (b + (c + d))
  {
  }

  lemma StepsTail(p: Path, tail: string)
    requires p != []
    ensures p[0].Field? ==> Steps(p) + tail == "." + (PathText(p) + tail)
    ensures p[0].Index? ==> Steps(p) + tail == "[" + (Decimal(p[0].i) + ("]" + (Steps(p[1..]) + tail)))
  {
    hide Escape, Decimal;
    var rest := Steps(p[1..]);
    match p[0]
    case Field(k) => Regroup(".", Escape(k), rest, tail);
    case Index(i) => Regroup("[", Decimal(i), "]", rest + tail);
  }

  lemma StepsHead(p: Path, t: string)
    requires p != []
    ensures p[0].Field? ==> Steps(p) + "=" + t == "." + (PathText(p) + "=" + t)
    ensures p[0].Index? ==> Steps(p) + "=" + t == "[" + (Decimal(p[0].i) + ("]" + (Steps(p[1..]) + "=" + t)))
  {
    hide Escape, Decimal, Steps, PathText;
    StepsTail(p, "=" + t);
    assert Steps(p) + "=" + t == Steps(p) + ("=" + t) && Steps(p[1..]) + "=" + t == Steps(p[1..]) + ("=" + t);
    assert p[0].Field? ==> PathText(p) + "=" + t == PathText(p) + ("=" + t);
  }

  /** How the key of a path reads, and what stands after it. */
  lemma KeyStops(p: Path, tail: string)
    requires p != [] && p[0].Field? && tail != "" && tail[0] in KEYEND
    ensures var s, q := PathText(p) + tail, p[1..];
            var r := RunesUntil(s, KEYEND);
            && r.text == p[0].key
            && (q == [] ==> r.last == Some(tail[0]) && r.rest == tail[1..])
            && (q != [] && q[0].Field? ==> r.last == Some('.') && r.rest == PathText(q) + tail)
            && (q != [] && q[0].Index? ==> r.last == Some('[') && r.rest == Decimal(q[0].i) + ("]" + (Steps(q[1..]) + tail)))
  {
    hide Escape, Decimal, RunesUntil;
    var q, k := p[1..], p[0].key;
    var s, more := PathText(p) + tail, Steps(q) + tail;
    assert s == Escape(k) + more;
    if q == [] {
      assert more == tail;
    } else {
      StepsTail(q, tail);
      assert q[0].Field? ==> more[1..] == PathText(q) + tail;
      assert q[0].Index? ==> more[1..] == Decimal(q[0].i) + ("]" + (Steps(q[1..]) + tail));
    }
    EscapedReads(k, more, KEYEND);
  }

  lemma KeyReads(p: Path, t: string)
    requires p != [] && p[0].Field?
    ensures var s, q := PathText(p) + "=" + t, p[1..];
            var r := RunesUntil(s, KEYEND);
            && r.text == p[0].key
            && (q == [] ==> r.last == Some('=') && r.rest == t)
            && (q != [] && q[0].Field? ==> r.last == Some('.') && r.rest == PathText(q) + "=" + t)
            && (q != [] && q[0].Index? ==> r.last == Some('[') && r.rest == Decimal(q[0].i) + ("]" + (Steps(q[1..]) + "=" + t)))
  {
    hide Escape, Decimal, RunesUntil, Steps, PathText;
    var q, tail := p[1..], "=" + t;
    KeyStops(p, tail);
    assert PathText(p) + "=" + t == PathText(p) + tail && tail[1..] == t;
    assert q != [] && q[0].Field? ==> PathText(q) + "=" + t == PathText(q) + tail;
    assert q != [] && q[0].Index? ==> Steps(q[1..]) + "=" + t == Steps(q[1..]) + tail;
  }

  // The parser, one rune after a key or an index at a time.

  lemma KeyAtDot(s: string, data: Entries, st: bool, k: string, rest: string)
    requires RunesUntil(s, KEYEND) == Read(k, Some('.'), rest) && k != ""
    ensures var r := Key(s, data, st);
            if k in data && !data[k].Map? then r.end.Fail?
            else
              var inner := Key(rest, if k in data then data[k].entries else map[], st);
              if inner.data == map[] then r.end.Fail? else r == KeyRead(data[k := Map(inner.data)], inner.rest, inner.end)
  {
    hide RunesUntil;
  }

  lemma KeyAtBracket(s: string, data: Entries, st: bool, k: string, rest: string, i: int, rest': string)
    requires RunesUntil(s, KEYEND) == Read(k, Some('['), rest) && k != ""
    requires var x := RunesUntil(rest, {']'}); x.last.Some? && x.rest == rest' && ParseInt(x.text) == Some(i)
    ensures var r := Key(s, data, st);
            if k in data && !data[k].List? then r.end.Fail?
            else
              var l := Item(rest', if k in data then data[k].items else [], i, st);
              if l.end.Panic? then r.end.Fail? else r == KeyRead(data[k := List(l.list)], l.rest, l.end)
  {
    hide RunesUntil, ParseInt;
  }

  lemma KeyAtEquals(s: string, data: Entries, st: bool, k: string, rest: string, v: Value, rest': string)
    requires RunesUntil(s, KEYEND) == Read(k, Some('='), rest) && k != "" && Gives(rest, v, rest', st)
    ensures Key(s, data, st) == KeyRead(data[k := v], rest', More)
  {
    hide RunesUntil, ReadValue;
  }

  lemma ItemAtEquals(s: string, list: seq<Value>, i: nat, st: bool, v: Value, rest: string)
    requires s != "" && s[0] == '=' && Gives(s[1..], v, rest, st)
    ensures Item(s, list, i, st) == ItemRead(SetIndex(list, i, v), rest, More)
  {
    hide ReadValue;
  }

  lemma ItemAtDot(s: string, list: seq<Value>, i: nat, st: bool)
    requires s != "" && s[0] == '.'
    ensures var inner := Key(s[1..], if i < |list| && list[i].Map? then list[i].entries else map[], st);
            var r := Item(s, list, i, st);
            if inner.end.More? then r == ItemRead(SetIndex(list, i, Map(inner.data)), inner.rest, More) else r.end == inner.end
  {
  }

  lemma ItemAtBracket(s: string, list: seq<Value>, i: nat, st: bool, j: int, rest: string)
    requires s != "" && s[0] == '['
    requires var x := RunesUntil(s[1..], {']'}); x.last.Some? && x.rest == rest && ParseInt(x.text) == Some(j)
    ensures var r := Item(s, list, i, st);
            if i < |list| && !list[i].Null? && !list[i].List? then r.end.Panic?
            else
              var inner := Item(rest, if i < |list| && list[i].List? then list[i].items else [], j, st);
              if inner.end.More? then r == ItemRead(SetIndex(list, i, List(inner.list)), inner.rest, More) else r.end == inner.end
  {
    hide ParseInt;
    assert RunesUntil(s, ITEMEND) == Read("", Some('['), s[1..]);
    hide RunesUntil;
  }

  // Writing, one step at a time.

  lemma GrowAtKey(p: Path, v: Value, data: Entries)
    requires p != [] && p[0].Field?
    ensures var k := p[0].key;
            var x := Grow(if k in data then Some(data[k]) else None, p[1..], v);
            Grow(Some(Map(data)), p, v) == if x.Some? then Some(Map(data[k := x.value])) else None
  {
  }

  lemma GrowAtIndex(p: Path, v: Value, xs: seq<Value>)
    requires p != [] && p[0].Index?
    ensures var x := Grow(if p[1..] == [] then None else Seen(xs, p[0].i, p[1..][0]), p[1..], v);
            Grow(Some(List(xs)), p, v) == if x.Some? then Some(List(SetIndex(xs, p[0].i, x.value))) else None
  {
  }

  /** What is not there is an empty map or list, and what is neither does not fit. */
  lemma GrowFits(p: Path, v: Value, x: Value)
    requires p != []
    ensures Grow(None, p, v) == Grow(Some(if p[0].Field? then Map(map[]) else List([])), p, v)
    ensures !Takes(x, p[0]) ==> Grow(Some(x), p, v) == None
  {
  }

  lemma GrowNothing(old_: Option<Value>, v: Value)
    ensures Grow(old_, [], v) == Some(v)
  {
  }

  /** Parsing one assignment writes its value under its path, or fails where it does not fit. */
  lemma {:induction false} KeyGrows(p: Path, t: string, v: Value, rest: string, data: Entries, st: bool)
    requires p != [] && p[0].Field? && WellPath(p) && Gives(t, v, rest, st)
    ensures var r := Key(PathText(p) + "=" + t, data, st);
            match Grow(Some(Map(data)), p, v)
            case Some(x) => x.Map? && r == KeyRead(x.entries, rest, More)
            case None => r.end.Fail?
    decreases |p|, 0
  {
    hide RunesUntil, ParseInt, ReadValue, Escape, Decimal, Steps, PathText, Key, Item, Gives, Grow;
    var s, k, q := PathText(p) + "=" + t, p[0].key, p[1..];
    KeyReads(p, t);
    GrowAtKey(p, v, data);
    assert WellStep(p[0]) && WellPath(q);
    if q == [] {
      KeyAtEquals(s, data, st, k, t, v, rest);
      GrowNothing(if k in data then Some(data[k]) else None, v);
    } else if q[0].Field? {
      KeyAtDot(s, data, st, k, PathText(q) + "=" + t);
      GrowFits(q, v, if k in data then data[k] else Null);
      if k !in data || data[k].Map? {
        KeyGrows(q, t, v, rest, if k in data then data[k].entries else map[], st);
        GrowAtKey(q, v, if k in data then data[k].entries else map[]);
        assert Grow(Some(Map(if k in data then data[k].entries else map[])), q, v).Some? ==>
          q[0].key in Grow(Some(Map(if k in data then data[k].entries else map[])), q, v).value.entries;
      }
    } else {
      KeyGrowsIndex(p, t, v, rest, data, st);
    }
  }

  lemma {:induction false} KeyGrowsIndex(p: Path, t: string, v: Value, rest: string, data: Entries, st: bool)
    requires |p| > 1 && p[0].Field? && p[1].Index? && WellPath(p) && Gives(t, v, rest, st)
    ensures var r := Key(PathText(p) + "=" + t, data, st);
            match Grow(Some(Map(data)), p, v)
            case Some(x) => x.Map? && r == KeyRead(x.entries, rest, More)
            case None => r.end.Fail?
    decreases |p| - 1, 2
  {
    hide RunesUntil, ParseInt, ReadValue, Escape, Decimal, Steps, PathText, Key, Item, Gives, Grow, SetIndex;
    var s, k, q := PathText(p) + "=" + t, p[0].key, p[1..];
    KeyReads(p, t);
    GrowAtKey(p, v, data);
    assert WellStep(p[0]) && WellStep(p[1]) && WellPath(q[1..]);
    var tail := Steps(q[1..]) + "=" + t;
    IndexReads(q[0].i, tail);
    KeyAtBracket(s, data, st, k, Decimal(q[0].i) + ("]" + tail), q[0].i, tail);
    GrowFits(q, v, if k in data then data[k] else Null);
    if k !in data || data[k].List? {
      var xs := if k in data then data[k].items else [];
      ItemGrows(q[1..], t, v, rest, xs, q[0].i, st);
      GrowAtIndex(q, v, xs);
    }
  }

  lemma {:induction false} ItemGrows(q: Path, t: string, v: Value, rest: string, list: seq<Value>, i: nat, st: bool)
    requires WellPath(q) && Gives(t, v, rest, st)
    ensures var r := Item(Steps(q) + "=" + t, list, i, st);
            match Grow(if q == [] then None else Seen(list, i, q[0]), q, v)
            case Some(x) => r == ItemRead(SetIndex(list, i, x), rest, More)
            case None => r.end.Fail? || r.end.Panic?
    decreases |q|, 1
  {
    hide RunesUntil, ParseInt, ReadValue, Escape, Decimal, Key, Item, Gives, Grow, SetIndex;
    var s := Steps(q) + "=" + t;
    if q == [] {
      assert s == "=" + t && s[1..] == t;
      ItemAtEquals(s, list, i, st, v, rest);
      GrowNothing(None, v);
    } else {
      hide Steps;
      StepsHead(q, t);
      GrowFits(q, v, if i < |list| then list[i] else Null);
      assert WellStep(q[0]) && WellPath(q[1..]);
      if q[0].Field? {
        assert s[1..] == PathText(q) + "=" + t;
        ItemAtDot(s, list, i, st);
        var inner := if i < |list| && list[i].Map? then list[i].entries else map[];
        KeyGrows(q, t, v, rest, inner, st);
      } else {
        assert s[1..] == Decimal(q[0].i) + ("]" + (Steps(q[1..]) + "=" + t));
        IndexReads(q[0].i, Steps(q[1..]) + "=" + t);
        ItemAtBracket(s, list, i, st, q[0].i, Steps(q[1..]) + "=" + t);
        var inner := if i < |list| && list[i].List? then list[i].items else [];
        ItemGrows(q[1..], t, v, rest, inner, q[0].i, st);
        GrowAtIndex(q, v, inner);
      }
    }
  }

  /** A value that a step can go into. */
  predicate Takes(v: Value, step: Step) {
    if step.Field? then v.Map? else v.List?
  }

  // ------------------------------------------------------------------ writing twice

  /** The value at the end of a path, as writing along it would find it. */
  function At(old_: Option<Value>, p: Path): Option<Value>
    decreases |p|
  {
    if p == [] || old_.None? then old_
    else
      match p[0]
      case Field(k) => if old_.value.Map? && k in old_.value.entries then At(Some(old_.value.entries[k]), p[1..]) else None
      case Index(i) =>
        if old_.value.List? && i < |old_.value.items| && (|p| == 1 || Seen(old_.value.items, i, p[1]).Some?) then
          At(Some(old_.value.items[i]), p[1..])
        else None
  }

  lemma SeenTaken(xs: seq<Value>, i: nat, x: Value, step: Step)
    requires Takes(x, step)
    ensures Seen(SetIndex(xs, i, x), i, step) == Some(x)
  {
  }

  lemma {:induction false} GrowTakes(old_: Option<Value>, p: Path, v: Value)
    requires p != [] && Grow(old_, p, v).Some?
    ensures Takes(Grow(old_, p, v).value, p[0])
  {
  }

  /** What was written is there. */
  lemma {:induction false} AtGrown(old_: Option<Value>, p: Path, v: Value)
    requires Grow(old_, p, v).Some?
    ensures At(Grow(old_, p, v), p) == Some(v)
    decreases |p|
  {
    if p != [] {
      match p[0]
      case Field(k) =>
        var m := if old_.Some? then old_.value.entries else map[];
        AtGrown(if k in m then Some(m[k]) else None, p[1..], v);
      case Index(i) =>
        var xs := if old_.Some? then old_.value.items else [];
        var old' := if |p| == 1 then None else Seen(xs, i, p[1]);
        AtGrown(old', p[1..], v);
        if |p| > 1 {
          GrowTakes(old', p[1..], v);
          SeenTaken(xs, i, Grow(old', p[1..], v).value, p[1]);
        }
    }
  }

  lemma SetIndexTwice(xs: seq<Value>, i: nat, x: Value, y: Value)
    ensures SetIndex(SetIndex(xs, i, x), i, y) == SetIndex(xs, i, y)
  {
  }

  /** Writing below something written replaces it by what it becomes. */
  lemma {:induction false} GrowTwice(old_: Option<Value>, p: Path, x: Value, q: Path, v: Value)
    requires Grow(old_, p, x).Some? && (q != [] ==> Takes(x, q[0])) && Grow(Some(x), q, v).Some?
    ensures Grow(old_, p, Grow(Some(x), q, v).value).Some?
    ensures Grow(Grow(old_, p, x), p + q, v) == Grow(old_, p, Grow(Some(x), q, v).value)
    decreases |p|, 1
  {
    hide Grow, SetIndex;
    var z := Grow(Some(x), q, v).value;
    if p == [] {
      assert p + q == q;
      GrowNothing(old_, x);
      GrowNothing(old_, z);
    } else {
      assert (p + q)[1..] == p[1..] + q && (p + q)[0] == p[0];
      GrowFits(p, x, if old_.Some? then old_.value else Null);
      GrowFits(p, z, if old_.Some? then old_.value else Null);
      match p[0]
      case Field(k) =>
        var m := if old_.Some? then old_.value.entries else map[];
        var old' := if k in m then Some(m[k]) else None;
        GrowAtKey(p, x, m);
        GrowAtKey(p, z, m);
        var y := Grow(old', p[1..], x).value;
        GrowTwice(old', p[1..], x, q, v);
        GrowAtKey(p + q, v, m[k := y]);
        var w := Grow(old', p[1..], z).value;
        assert m[k := y][k := w] == m[k := w];
      case Index(i) =>
        var xs := if old_.Some? then old_.value.items else [];
        GrowTwiceIndex(xs, p, x, q, v);
    }
  }

  lemma {:induction false} GrowTwiceIndex(xs: seq<Value>, p: Path, x: Value, q: Path, v: Value)
    requires p != [] && p[0].Index? && Grow(Some(List(xs)), p, x).Some?
    requires (q != [] ==> Takes(x, q[0])) && Grow(Some(x), q, v).Some?
    ensures Grow(Some(List(xs)), p, Grow(Some(x), q, v).value).Some?
    ensures Grow(Grow(Some(List(xs)), p, x), p + q, v) == Grow(Some(List(xs)), p, Grow(Some(x), q, v).value)
    decreases |p|, 0
  {
    hide Grow, SetIndex, Seen;
    var i, z := p[0].i, Grow(Some(x), q, v).value;
    assert (p + q)[1..] == p[1..] + q && (p + q)[0] == p[0];
    GrowAtIndex(p, x, xs);
    GrowAtIndex(p, z, xs);
    var old' := if p[1..] == [] then None else Seen(xs, i, p[1..][0]);
    GrowTwice(old', p[1..], x, q, v);
    var y := Grow(old', p[1..], x).value;
    GrowAtIndex(p + q, v, SetIndex(xs, i, y));
    SetIndexTwice(xs, i, y, Grow(old', p[1..], z).value);
    if p[1..] != [] {
      GrowTakes(old', p[1..], x);
      SeenTaken(xs, i, y, p[1..][0]);
    } else {
      GrowNothing(old', x);
      GrowNothing(old', z);
      assert (p + q)[1..] == q;
      if q != [] {
        SeenTaken(xs, i, x, q[0]);
      } else {
        GrowNothing(None, v);
        GrowNothing(Some(x), v);
      }
    }
  }

  // ------------------------------------------------------------------ trees

  /** A tree with strings at its leaves, the fields of its maps in some order. */
  datatype Tree = Leaf(text: string) | Fields(fields: seq<Member>) | Items(items: seq<Tree>)
  datatype Member = Member(key: string, tree: Tree)

  ghost predicate Printable(t: Tree) {
    match t
    case Leaf(_) => true
    case Fields(fs) =>
      && fs != [] && (forall i :: 0 <= i < |fs| ==> fs[i].key != "" && Printable(fs[i].tree))
      && forall i, j :: 0 <= i < j < |fs| ==> fs[i].key != fs[j].key
    case Items(ts) => ts != [] && |ts| <= MAXINT && forall i :: 0 <= i < |ts| ==> Printable(ts[i])
  }

  function ToValue(t: Tree): Value {
    match t
    case Leaf(s) => Str(s)
    case Fields(fs) => Map(ToEntries(fs))
    case Items(ts) => List(ToList(ts))
  }

  function ToEntries(fs: seq<Member>): Entries {
    if fs == [] then map[]
    else
      var n := |fs| - 1;
      ToEntries(fs[..n])[fs[n].key := ToValue(fs[n].tree)]
  }

  function ToList(ts: seq<Tree>): (r: seq<Value>)
    ensures |r| == |ts|
  {
    if ts == [] then []
    else
      var n := |ts| - 1;
      ToList(ts[..n]) + [ToValue(ts[n])]
  }

  /** Each leaf as path, equals sign, value and comma; only maps stand at the top. */
  function Print(p: Path, t: Tree): string
    requires if p == [] then t.Fields? else p[0].Field?
    decreases t
  {
    match t
    case Leaf(s) => PathText(p) + "=" + Escape(s) + ","
    case Fields(fs) => PrintFields(p, fs)
    case Items(ts) => PrintItems(p, ts)
  }

  function PrintFields(p: Path, fs: seq<Member>): string
    requires p == [] || p[0].Field?
    decreases fs
  {
    if fs == [] then ""
    else
      var n := |fs| - 1;
      PrintFields(p, fs[..n]) + Print(p + [Field(fs[n].key)], fs[n].tree)
  }

  function PrintItems(p: Path, ts: seq<Tree>): string
    requires p != [] && p[0].Field?
    decreases ts
  {
    if ts == [] then ""
    else
      var n := |ts| - 1;
      PrintItems(p, ts[..n]) + Print(p + [Index(n)], ts[n])
  }

  // ------------------------------------------------------------------ vacant places

  /** Below a vacant place writing starts from nothing. */
  lemma {:induction false} GrowVacant(old_: Option<Value>, p: Path, q: Path, v: Value)
    requires At(old_, p).None? && Grow(old_, p, v).Some? && q != [] && Grow(None, q, v).Some?
    ensures Grow(old_, p, Grow(None, q, v).value).Some?
    ensures Grow(old_, p + q, v) == Grow(old_, p, Grow(None, q, v).value)
    decreases |p|
  {
    hide SetIndex;
    if p == [] {
      assert p + q == q;
    } else {
      assert (p + q)[1..] == p[1..] + q && (p + q)[0] == p[0];
      match p[0]
      case Field(k) =>
        var m := if old_.Some? then old_.value.entries else map[];
        GrowVacant(if k in m then Some(m[k]) else None, p[1..], q, v);
      case Index(i) =>
        var xs := if old_.Some? then old_.value.items else [];
        GrowVacant(if |p| == 1 then None else Seen(xs, i, p[1]), p[1..], q, v);
    }
  }

  lemma {:induction false} AtNext(old_: Option<Value>, p: Path, x: Value, step: Step)
    requires At(old_, p) == Some(x) && Takes(x, step)
    ensures At(old_, p + [step]) == At(Some(x), [step])
    decreases |p|
  {
    if p == [] {
      assert p + [step] == [step];
    } else {
      assert (p + [step])[1..] == p[1..] + [step] && (p + [step])[0] == p[0];
      match p[0]
      case Field(k) => AtNext(Some(old_.value.entries[k]), p[1..], x, step);
      case Index(i) => AtNext(Some(old_.value.items[i]), p[1..], x, step);
    }
  }

  // ------------------------------------------------------------------ the round trip

  /** The map that data becomes once x is written under p. */
  function Written(data: Entries, p: Path, x: Value): Entries {
    match Grow(Some(Map(data)), p, x)
    case Some(Map(m)) => m
    case _ => map[]
  }

  /** Nothing is there yet, and everything fits. */
  ghost predicate Free(data: Entries, p: Path) {
    At(Some(Map(data)), p).None? && forall v :: Grow(Some(Map(data)), p, v).Some?
  }

  lemma WrittenIs(data: Entries, p: Path, x: Value)
    requires p != [] && p[0].Field? && Grow(Some(Map(data)), p, x).Some?
    ensures Grow(Some(Map(data)), p, x) == Some(Map(Written(data, p, x)))
  {
  }

  lemma ParseLeaf(p: Path, s: string, data: Entries, rest: string)
    requires p != [] && p[0].Field? && WellPath(p) && Free(data, p)
    ensures Parse(Print(p, Leaf(s)) + rest, data, true) == Parse(rest, Written(data, p, Str(s)), true)
  {
    hide PathText, Escape, Key, Grow, RunesUntil;
    var t := Escape(s) + ("," + rest);
    LeafGives(s, rest);
    KeyGrows(p, t, Str(s), rest, data, true);
    assert Print(p, Leaf(s)) + rest == PathText(p) + "=" + t;
    WrittenIs(data, p, Str(s));
  }

  lemma LeafGives(s: string, rest: string)
    ensures Gives(Escape(s) + ("," + rest), Str(s), rest, true)
  {
    EscapedReads(s, "," + rest, {','});
    if s != "" {
      assert (Escape(s) + ("," + rest))[0] == Escape(s)[0];
    }
  }

  /** Below a free place, the first field. */
  lemma FirstIsFree(data: Entries, p: Path, step: Step)
    requires Free(data, p) && (step.Index? ==> step.i == 0)
    ensures Free(data, p + [step])
    ensures forall v :: Grow(Some(Map(data)), p + [step], v) == Grow(Some(Map(data)), p, One(step, v))
  {
    forall v ensures Grow(Some(Map(data)), p + [step], v) == Grow(Some(Map(data)), p, One(step, v)) {
      assert Grow(None, [step], v) == Some(One(step, v));
      GrowVacant(Some(Map(data)), p, [step], v);
    }
    AtVacant(Some(Map(data)), p, step);
  }

  /** The map or list with just v in it. */
  function One(step: Step, v: Value): Value {
    match step
    case Field(k) => Map(map[k := v])
    case Index(i) => List(SetIndex([], i, v))
  }

  lemma {:induction false} AtVacant(old_: Option<Value>, p: Path, step: Step)
    requires At(old_, p).None?
    ensures At(old_, p + [step]).None?
    decreases |p|
  {
    if p != [] && old_.Some? {
      assert (p + [step])[1..] == p[1..] + [step] && (p + [step])[0] == p[0];
      match p[0]
      case Field(k) =>
        if old_.value.Map? && k in old_.value.entries {
          AtVacant(Some(old_.value.entries[k]), p[1..], step);
        }
      case Index(i) =>
        if old_.value.List? && i < |old_.value.items| && |p| > 1 && Seen(old_.value.items, i, p[1]).Some? {
          AtVacant(Some(old_.value.items[i]), p[1..], step);
        }
    }
  }

  /** The map or list x with v put in. */
  function Put(x: Value, step: Step, v: Value): Value
    requires Takes(x, step)
  {
    match step
    case Field(k) => Map(x.entries[k := v])
    case Index(i) => List(SetIndex(x.items, i, v))
  }

  /** Below something written, a further step that finds nothing. */
  lemma NextIsFree(data: Entries, p: Path, x: Value, step: Step)
    requires (forall v :: Grow(Some(Map(data)), p, v).Some?) && (if p == [] then x.Map? else p[0].Field?)
    requires Takes(x, step) && At(Some(x), [step]).None?
    ensures Free(Written(data, p, x), p + [step])
    ensures forall v :: Grow(Some(Map(Written(data, p, x))), p + [step], v) == Grow(Some(Map(data)), p, Put(x, step, v))
  {
    if p == [] {
      GrowNothing(Some(Map(data)), x);
    } else {
      WrittenIs(data, p, x);
    }
    AtGrown(Some(Map(data)), p, x);
    AtNext(Grow(Some(Map(data)), p, x), p, x, step);
    forall v
      ensures Grow(Some(Map(Written(data, p, x))), p + [step], v) == Grow(Some(Map(data)), p, Put(x, step, v))
    {
      GrowTwice(Some(Map(data)), p, x, [step], v);
    }
  }

  lemma {:induction false} ParseTree(p: Path, t: Tree, data: Entries, rest: string)
    requires p != [] && p[0].Field? && WellPath(p) && Printable(t) && Free(data, p)
    ensures Parse(Print(p, t) + rest, data, true) == Parse(rest, Written(data, p, ToValue(t)), true)
    decreases t
  {
    hide Parse, Grow, At, Free;
    match t
    case Leaf(s) => ParseLeaf(p, s, data, rest);
    case Fields(fs) => ParseFields(p, fs, data, rest);
    case Items(ts) => ParseItems(p, ts, data, rest);
  }

  lemma {:induction false} ParseFields(p: Path, fs: seq<Member>, data: Entries, rest: string)
    requires p != [] && p[0].Field? && WellPath(p) && Printable(Fields(fs)) && Free(data, p)
    ensures Parse(PrintFields(p, fs) + rest, data, true) == Parse(rest, Written(data, p, Map(ToEntries(fs))), true)
    decreases fs
  {
    hide Parse, Grow, At, Print, Escape;
    var n := |fs| - 1;
    var last, step := fs[n], Field(fs[n].key);
    var before, line := Written(data, p, Map(ToEntries(fs[..n]))), Print(p + [step], last.tree);
    assert PrintFields(p, fs) + rest == PrintFields(p, fs[..n]) + (line + rest);
    if n == 0 {
      FirstIsFree(data, p, step);
      assert line + rest == PrintFields(p, fs) + rest;
      ParseTree(p + [step], last.tree, data, rest);
      assert ToEntries(fs) == map[last.key := ToValue(last.tree)];
    } else {
      ParseFields(p, fs[..n], data, line + rest);
      KeysOf(fs[..n], last.key);
      NewKey(ToEntries(fs[..n]), last.key);
      NextIsFree(data, p, Map(ToEntries(fs[..n])), step);
      ParseTree(p + [step], last.tree, before, rest);
    }
  }

  lemma NewKey(m: Entries, k: string)
    requires k !in m
    ensures At(Some(Map(m)), [Field(k)]).None?
  {
  }

  lemma {:induction false} KeysOf(fs: seq<Member>, k: string)
    requires forall i :: 0 <= i < |fs| ==> fs[i].key != k
    ensures k !in ToEntries(fs)
  {
    if fs != [] {
      KeysOf(fs[..|fs| - 1], k);
    }
  }

  lemma {:induction false} ParseItems(p: Path, ts: seq<Tree>, data: Entries, rest: string)
    requires p != [] && p[0].Field? && WellPath(p) && Printable(Items(ts)) && Free(data, p)
    ensures Parse(PrintItems(p, ts) + rest, data, true) == Parse(rest, Written(data, p, List(ToList(ts))), true)
    decreases ts
  {
    hide Parse, Grow, At, Print, Escape;
    var n := |ts| - 1;
    var last, step := ts[n], Index(n);
    var before, line := Written(data, p, List(ToList(ts[..n]))), Print(p + [step], last);
    assert PrintItems(p, ts) + rest == PrintItems(p, ts[..n]) + (line + rest);
    if n == 0 {
      FirstIsFree(data, p, step);
      assert line + rest == PrintItems(p, ts) + rest;
      ParseTree(p + [step], last, data, rest);
      assert ToList(ts) == [ToValue(last)] == SetIndex([], 0, ToValue(last));
    } else {
      ParseItems(p, ts[..n], data, line + rest);
      NewIndex(ToList(ts[..n]));
      NextIsFree(data, p, List(ToList(ts[..n])), step);
      ParseTree(p + [step], last, before, rest);
      assert SetIndex(ToList(ts[..n]), n, ToValue(last)) == ToList(ts);
    }
  }

  lemma NewIndex(xs: seq<Value>)
    ensures At(Some(List(xs)), [Index(|xs|)]).None?
  {
  }

  lemma TopIsFree(data: Entries, k: string)
    requires k !in data
    ensures Free(data, [Field(k)])
    ensures forall v :: Written(data, [Field(k)], v) == data[k := v]
  {
    forall v ensures Grow(Some(Map(data)), [Field(k)], v) == Some(Map(data[k := v])) {
      GrowAtKey([Field(k)], v, data);
      GrowNothing(None, v);
    }
  }

  lemma {:induction false} ParseTop(fs: seq<Member>, rest: string)
    requires Printable(Fields(fs))
    ensures Parse(PrintFields([], fs) + rest, map[], true) == Parse(rest, ToEntries(fs), true)
    decreases |fs|
  {
    hide Parse, Grow, At, Print, Escape, Free, Written;
    var n := |fs| - 1;
    var last := fs[n];
    var p := [Field(last.key)];
    assert [] + p == p;
    var line := Print(p, last.tree);
    assert PrintFields([], fs) + rest == PrintFields([], fs[..n]) + (line + rest);
    KeysOf(fs[..n], last.key);
    TopIsFree(ToEntries(fs[..n]), last.key);
    ParseTree(p, last.tree, ToEntries(fs[..n]), rest);
    if n == 0 {
      assert line + rest == PrintFields([], fs) + rest;
    } else {
      ParseTop(fs[..n], line + rest);
    }
  }

  /** The round trip: parsing the printed tree gives the tree back. */
  lemma ParsePrinted(fs: seq<Member>)
    requires Printable(Fields(fs))
    ensures Parse(PrintFields([], fs), map[], true) == Parsed(ToEntries(fs), true)
  {
    ParseTop(fs, "");
    assert PrintFields([], fs) + "" == PrintFields([], fs);
  }
}
