/** Why a printed line ends with a comma: where the input ends right after an equals sign, the
    parser may lose the empty value. This says exactly when. */
module StrvalsEnd {
  import opened Prelude
  import opened Strvals
  import opened StrvalsRoundTrip

  /** Following p, some index that is directly followed by a field lies beyond its list. */
  predicate Overruns(old_: Option<Value>, p: Path)
    decreases |p|
  {
    |p| > 1 &&
    match p[0]
    case Field(k) =>
      var m := if old_.Some? && old_.value.Map? then old_.value.entries else map[];
      Overruns(if k in m then Some(m[k]) else None, p[1..])
    case Index(i) =>
      var xs := if old_.Some? && old_.value.List? then old_.value.items else [];
      (p[1].Field? && i >= |xs|) || Overruns(Seen(xs, i, p[1]), p[1..])
  }

  /** The end of the input is reported upwards only from a field; an index passes it over. */
  predicate EndsInField(p: Path) {
    p != [] && p[|p| - 1].Field?
  }

  predicate IsLost(old_: Option<Value>, p: Path) {
    EndsInField(p) && Overruns(old_, p)
  }

  function EndOf(p: Path): End {
    if EndsInField(p) then Eof else More
  }

  /** What stands at a place once an empty value is written below it at the end of the input: where
      a field ends the path, an item that is not there, or no list, is not put in. */
  function Left(old_: Option<Value>, p: Path): Value
    decreases |p|
  {
    if p == [] then Str("")
    else
      match p[0]
      case Field(k) =>
        var m := if old_.Some? && old_.value.Map? then old_.value.entries else map[];
        Map(m[k := Left(if k in m then Some(m[k]) else None, p[1..])])
      case Index(i) =>
        var xs := if old_.Some? && old_.value.List? then old_.value.items else [];
        if |p| > 1 && EndsInField(p) && (i >= |xs| || (p[1].Index? && !xs[i].List?)) then List(xs)
        else List(SetIndex(xs, i, Left(if |p| == 1 then None else Seen(xs, i, p[1]), p[1..])))
  }

  lemma NextEnd(p: Path)
    requires |p| > 1
    ensures EndsInField(p[1..]) == EndsInField(p)
  {
  }

  /** A list that is not there yet is overrun. */
  lemma {:induction false} NewIsOverrun(p: Path)
    requires p != [] && p[0].Index? && EndsInField(p)
    ensures Overruns(None, p)
    decreases |p|
  {
    NextEnd(p);
    if p[1].Index? {
      NewIsOverrun(p[1..]);
    }
  }

  /** The value is lost, and only then, if an index before a field overruns its list. */
  lemma {:induction false} LeftIsGrown(old_: Option<Value>, p: Path)
    requires Grow(old_, p, Str("")).Some?
    ensures Left(old_, p) == Grow(old_, p, Str("")).value <==> !IsLost(old_, p)
    decreases |p|
  {
    if p != [] {
      if |p| > 1 {
        NextEnd(p);
      }
      match p[0]
      case Field(k) =>
        var m := if old_.Some? then old_.value.entries else map[];
        var inner := if k in m then Some(m[k]) else None;
        LeftIsGrown(inner, p[1..]);
        var x, y := Left(inner, p[1..]), Grow(inner, p[1..], Str("")).value;
        assert m[k := x][k] == x && m[k := y][k] == y;
      case Index(i) =>
        var xs := if old_.Some? then old_.value.items else [];
        var inner := if |p| == 1 then None else Seen(xs, i, p[1]);
        LeftIsGrown(inner, p[1..]);
        var x, y := Left(inner, p[1..]), Grow(inner, p[1..], Str("")).value;
        assert SetIndex(xs, i, x)[i] == x && SetIndex(xs, i, y)[i] == y;
        if |p| > 1 && EndsInField(p) && (i >= |xs| || (p[1].Index? && !xs[i].List?)) {
          NewNotLeft(xs, i, p, y);
        }
    }
  }

  lemma NewNotLeft(xs: seq<Value>, i: nat, p: Path, y: Value)
    requires |p| > 1 && p[0] == Index(i) && EndsInField(p) && (i >= |xs| || (p[1].Index? && !xs[i].List?))
    requires var inner := Seen(xs, i, p[1]);
             Grow(inner, p[1..], Str("")) == Some(y)
    ensures xs != SetIndex(xs, i, y) && Overruns(Some(List(xs)), p)
  {
    hide Grow;
    NextEnd(p);
    GrowFits(p[1..], Str(""), if i < |xs| then xs[i] else Null);
    if p[1].Index? {
      NewIsOverrun(p[1..]);
      GrowTakes(Seen(xs, i, p[1]), p[1..], Str(""));
    }
  }

  // ------------------------------------------------------------------ the parser at the end

  lemma KeyAtEnd(s: string, data: Entries, st: bool, k: string)
    requires RunesUntil(s, KEYEND) == Read(k, Some('='), "") && k != ""
    ensures Key(s, data, st) == KeyRead(data[k := Str("")], "", Eof)
  {
    hide RunesUntil;
  }

  lemma ItemAtEnd(list: seq<Value>, i: nat, st: bool)
    ensures Item("=", list, i, st) == ItemRead(SetIndex(list, i, Str("")), "", More)
  {
    assert RunesUntil("=", ITEMEND) == Read("", Some('='), "");
  }

  /** Item at a dot, also where its key does not go on. */
  lemma ItemInto(s: string, list: seq<Value>, i: nat, st: bool)
    requires s != "" && s[0] == '.'
    ensures var inner := Key(s[1..], if i < |list| && list[i].Map? then list[i].entries else map[], st);
            Item(s, list, i, st) ==
              if inner.end.More? then ItemRead(SetIndex(list, i, Map(inner.data)), inner.rest, More)
              else ItemRead(if i < |list| then list[i := Map(inner.data)] else list, inner.rest, inner.end)
  {
    assert RunesUntil(s, ITEMEND) == Read("", Some('.'), s[1..]);
    hide RunesUntil, Key;
  }

  lemma ItemAcross(s: string, list: seq<Value>, i: nat, st: bool, j: int, rest: string)
    requires s != "" && s[0] == '[' && (i >= |list| || list[i].Null? || list[i].List?)
    requires var x := RunesUntil(s[1..], {']'}); x.last.Some? && x.rest == rest && ParseInt(x.text) == Some(j)
    ensures var found := i < |list| && list[i].List?;
            var inner := Item(rest, if found then list[i].items else [], j, st);
            Item(s, list, i, st) ==
              if inner.end.More? then ItemRead(SetIndex(list, i, List(inner.list)), inner.rest, More)
              else ItemRead(if found then list[i := List(inner.list)] else list, inner.rest, inner.end)
  {
    hide ParseInt;
    assert RunesUntil(s, ITEMEND) == Read("", Some('['), s[1..]);
    hide RunesUntil;
  }

  // ------------------------------------------------------------------ what is left of the value

  /** What Key makes of an empty value at the end of the input. */
  ghost predicate LeavesKey(p: Path, data: Entries, r: KeyRead) {
    if Grow(Some(Map(data)), p, Str("")).None? then r.end.Fail?
    else r.rest == "" && r.end == EndOf(p) && Map(r.data) == Left(Some(Map(data)), p)
  }

  ghost predicate LeavesItem(q: Path, list: seq<Value>, i: nat, r: ItemRead) {
    if Grow(if q == [] then None else Seen(list, i, q[0]), q, Str("")).None? then r.end.Fail? || r.end.Panic?
    else r.rest == "" && r.end == EndOf(q) && List(r.list) == Left(Some(List(list)), [Index(i)] + q)
  }

  lemma {:induction false} KeyLeaves(p: Path, data: Entries, st: bool)
    requires p != [] && p[0].Field? && WellPath(p)
    ensures LeavesKey(p, data, Key(PathText(p) + "=" + "", data, st))
    decreases |p|, 0
  {
    hide RunesUntil, ParseInt, Escape, Decimal, Steps, PathText, Key, Item, Grow, Left, LeavesItem, LeavesKey;
    var s, k, q := PathText(p) + "=" + "", p[0].key, p[1..];
    KeyReads(p, "");
    assert WellStep(p[0]) && WellPath(q);
    if q == [] {
      KeyAtEnd(s, data, st, k);
      OneKeyLeaves(p, data);
    } else if q[0].Field? {
      KeyAtDot(s, data, st, k, PathText(q) + "=" + "");
      if k !in data || data[k].Map? {
        var inner := if k in data then data[k].entries else map[];
        KeyLeaves(q, inner, st);
        DotLeaves(p, data, Key(PathText(q) + "=" + "", inner, st), Key(s, data, st));
      } else {
        MisfitLeaves(p, data, Key(s, data, st));
      }
    } else {
      var tail := Steps(q[1..]) + "=" + "";
      assert WellStep(q[0]) && WellPath(q[1..]);
      IndexReads(q[0].i, tail);
      KeyAtBracket(s, data, st, k, Decimal(q[0].i) + ("]" + tail), q[0].i, tail);
      if k !in data || data[k].List? {
        var xs := if k in data then data[k].items else [];
        ItemLeaves(q[1..], xs, q[0].i, st);
        BracketLeaves(p, data, Item(tail, xs, q[0].i, st), Key(s, data, st));
      } else {
        MisfitLeaves(p, data, Key(s, data, st));
      }
    }
  }

  lemma OneKeyLeaves(p: Path, data: Entries)
    requires |p| == 1 && p[0].Field?
    ensures LeavesKey(p, data, KeyRead(data[p[0].key := Str("")], "", Eof))
  {
    GrowAtKey(p, Str(""), data);
    GrowNothing(if p[0].key in data then Some(data[p[0].key]) else None, Str(""));
  }

  lemma MisfitLeaves(p: Path, data: Entries, r: KeyRead)
    requires |p| > 1 && p[0].Field? && p[0].key in data && !Takes(data[p[0].key], p[1]) && r.end.Fail?
    ensures LeavesKey(p, data, r)
  {
    hide Grow;
    GrowAtKey(p, Str(""), data);
    GrowFits(p[1..], Str(""), data[p[0].key]);
  }

  lemma LeftAtKey(p: Path, data: Entries)
    requires p != [] && p[0].Field?
    ensures Left(Some(Map(data)), p) ==
              Map(data[p[0].key := Left(if p[0].key in data then Some(data[p[0].key]) else None, p[1..])])
  {
  }

  /** What is not there counts as empty. */
  lemma LeftFits(p: Path)
    requires p != []
    ensures Left(None, p) == Left(Some(if p[0].Field? then Map(map[]) else List([])), p)
  {
  }

  lemma DotLeaves(p: Path, data: Entries, inner: KeyRead, r: KeyRead)
    requires |p| > 1 && p[0].Field? && p[1].Field? && (p[0].key in data ==> data[p[0].key].Map?)
    requires LeavesKey(p[1..], if p[0].key in data then data[p[0].key].entries else map[], inner)
    requires if inner.data == map[] then r.end.Fail? else r == KeyRead(data[p[0].key := Map(inner.data)], inner.rest, inner.end)
    ensures LeavesKey(p, data, r)
  {
    hide Grow, Left;
    var k, q := p[0].key, p[1..];
    GrowAtKey(p, Str(""), data);
    GrowFits(q, Str(""), Null);
    NextEnd(p);
    LeftAtKey(p, data);
    LeftFits(q);
    LeftAtKey(q, if k in data then data[k].entries else map[]);
    assert inner.data == map[] ==> q[0].key !in inner.data;
  }

  lemma BracketLeaves(p: Path, data: Entries, l: ItemRead, r: KeyRead)
    requires |p| > 1 && p[0].Field? && p[1].Index? && (p[0].key in data ==> data[p[0].key].List?)
    requires LeavesItem(p[2..], if p[0].key in data then data[p[0].key].items else [], p[1].i, l)
    requires if l.end.Panic? then r.end.Fail? else r == KeyRead(data[p[0].key := List(l.list)], l.rest, l.end)
    ensures LeavesKey(p, data, r)
  {
    hide Grow, Left, SetIndex;
    var k, q := p[0].key, p[1..];
    assert q[1..] == p[2..] && [Index(p[1].i)] + p[2..] == q;
    GrowAtKey(p, Str(""), data);
    GrowFits(q, Str(""), Null);
    GrowAtIndex(q, Str(""), if k in data then data[k].items else []);
    NextEnd(p);
    EndAfterIndex(q);
    LeftAtKey(p, data);
    LeftFits(q);
  }

  lemma EndAfterIndex(q: Path)
    requires q != [] && q[0].Index?
    ensures EndsInField(q) == EndsInField(q[1..])
  {
    if |q| > 1 {
      NextEnd(q);
    }
  }

  lemma {:induction false} ItemLeaves(q: Path, list: seq<Value>, i: nat, st: bool)
    requires WellPath(q)
    ensures LeavesItem(q, list, i, Item(Steps(q) + "=" + "", list, i, st))
    decreases |q|, 1
  {
    hide RunesUntil, ParseInt, Escape, Decimal, Key, Item, Grow, SetIndex, Left, LeavesItem, LeavesKey, PathText;
    var s := Steps(q) + "=" + "";
    if q == [] {
      assert s == "=";
      ItemAtEnd(list, i, st);
      NoStepLeaves(list, i);
    } else {
      hide Steps;
      StepsHead(q, "");
      assert WellStep(q[0]) && WellPath(q[1..]);
      if q[0].Field? {
        assert s[1..] == PathText(q) + "=" + "";
        ItemInto(s, list, i, st);
        var inner := if i < |list| && list[i].Map? then list[i].entries else map[];
        KeyLeaves(q, inner, st);
        IntoLeaves(q, list, i, Key(s[1..], inner, st), Item(s, list, i, st));
      } else {
        var tail := Steps(q[1..]) + "=" + "";
        assert s[1..] == Decimal(q[0].i) + ("]" + tail);
        IndexReads(q[0].i, tail);
        if i < |list| && !list[i].Null? && !list[i].List? {
          ItemAtBracket(s, list, i, st, q[0].i, tail);
          NoListLeaves(q, list, i, Item(s, list, i, st));
        } else {
          ItemAcross(s, list, i, st, q[0].i, tail);
          var inner := if i < |list| && list[i].List? then list[i].items else [];
          ItemLeaves(q[1..], inner, q[0].i, st);
          AcrossLeaves(q, list, i, Item(tail, inner, q[0].i, st), Item(s, list, i, st));
        }
      }
    }
  }

  lemma NoStepLeaves(list: seq<Value>, i: nat)
    ensures LeavesItem([], list, i, ItemRead(SetIndex(list, i, Str("")), "", More))
  {
    GrowNothing(None, Str(""));
    assert [Index(i)] + [] == [Index(i)];
  }

  lemma NoListLeaves(q: Path, list: seq<Value>, i: nat, r: ItemRead)
    requires q != [] && q[0].Index? && i < |list| && !list[i].Null? && !list[i].List? && r.end.Panic?
    ensures LeavesItem(q, list, i, r)
  {
    GrowFits(q, Str(""), list[i]);
  }

  lemma LeftAtIndex(q: Path, list: seq<Value>, i: nat)
    requires q != []
    ensures Left(Some(List(list)), [Index(i)] + q) ==
              if EndsInField(q) && (i >= |list| || (q[0].Index? && !list[i].List?)) then List(list)
              else List(SetIndex(list, i, Left(Seen(list, i, q[0]), q)))
  {
    var p := [Index(i)] + q;
    assert p[1..] == q && p[1] == q[0];
    NextEnd(p);
  }

  lemma IntoLeaves(q: Path, list: seq<Value>, i: nat, inner: KeyRead, r: ItemRead)
    requires q != [] && q[0].Field?
    requires LeavesKey(q, if i < |list| && list[i].Map? then list[i].entries else map[], inner)
    requires r == if inner.end.More? then ItemRead(SetIndex(list, i, Map(inner.data)), inner.rest, More)
                  else ItemRead(if i < |list| then list[i := Map(inner.data)] else list, inner.rest, inner.end)
    ensures LeavesItem(q, list, i, r)
  {
    hide Grow, Left;
    var m := if i < |list| && list[i].Map? then list[i].entries else map[];
    GrowFits(q, Str(""), Null);
    LeftFits(q);
    LeftAtIndex(q, list, i);
    assert Seen(list, i, q[0]) == Some(Map(m)) || (Seen(list, i, q[0]) == None && m == map[]);
    if i < |list| {
      assert list[i := Map(inner.data)] == SetIndex(list, i, Map(inner.data));
    }
  }

  lemma AcrossLeaves(q: Path, list: seq<Value>, i: nat, inner: ItemRead, r: ItemRead)
    requires q != [] && q[0].Index? && (i >= |list| || list[i].Null? || list[i].List?)
    requires LeavesItem(q[1..], if i < |list| && list[i].List? then list[i].items else [], q[0].i, inner)
    requires var found := i < |list| && list[i].List?;
             r == if inner.end.More? then ItemRead(SetIndex(list, i, List(inner.list)), inner.rest, More)
                  else ItemRead(if found then list[i := List(inner.list)] else list, inner.rest, inner.end)
    ensures LeavesItem(q, list, i, r)
  {
    hide Grow, Left;
    var found := i < |list| && list[i].List?;
    var xs := if found then list[i].items else [];
    assert [Index(q[0].i)] + q[1..] == q;
    GrowFits(q, Str(""), Null);
    GrowAtIndex(q, Str(""), xs);
    LeftFits(q);
    LeftAtIndex(q, list, i);
    EndAfterIndex(q);
    assert Seen(list, i, q[0]) == if found then Some(List(xs)) else None;
    if i < |list| {
      assert list[i := List(inner.list)] == SetIndex(list, i, List(inner.list));
    }
  }

  // ------------------------------------------------------------------ the whole line

  lemma CommaGives(st: bool)
    ensures Gives(",", Str(""), "", st)
  {
  }

  lemma ParseEmpty(data: Entries, st: bool)
    ensures Parse("", data, st) == Parsed(data, true)
  {
  }

  /** Where the path fits, an empty value at the end of the input leaves what Left says, and reads
      like one before a comma exactly if the path ends in an index, or no index before a field lies
      beyond its list. */
  lemma EmptyAtTheEnd(p: Path, data: Entries, st: bool)
    requires p != [] && p[0].Field? && WellPath(p) && Grow(Some(Map(data)), p, Str("")).Some?
    ensures var r := Parse(PathText(p) + "=", data, st);
            r.ok && Map(r.data) == Left(Some(Map(data)), p)
    ensures Parse(PathText(p) + "=,", data, st) == Parsed(Written(data, p, Str("")), true)
    ensures Parse(PathText(p) + "=", data, st) == Parse(PathText(p) + "=,", data, st) <==> !IsLost(Some(Map(data)), p)
  {
    hide Key, Grow, PathText, Overruns, Left;
    CommaGives(st);
    KeyGrows(p, ",", Str(""), "", data, st);
    assert PathText(p) + "=" + "," == PathText(p) + "=,";
    KeyLeaves(p, data, st);
    assert PathText(p) + "=" + "" == PathText(p) + "=";
    WrittenIs(data, p, Str(""));
    LeftIsGrown(Some(Map(data)), p);
    var r := Key(PathText(p) + "=", data, st);
    ParseEmpty(r.data, st);
    ParseEmpty(Written(data, p, Str("")), st);
  }

  /** The shortest such line: a map in a new list item. */
  lemma EmptyAtTheEndIsLost(k: string, i: nat, field: string, st: bool)
    requires k != "" && field != "" && i <= MAXINT
    ensures Parse(PathText([Field(k), Index(i), Field(field)]) + "=", map[], st) == Parsed(map[k := List([])], true)
    ensures Parse(PathText([Field(k), Index(i), Field(field)]) + "=,", map[], st) ==
              Parsed(map[k := List(SetIndex([], i, Map(map[field := Str("")])))], true)
  {
    hide Parse, PathText, SetIndex;
    var p := [Field(k), Index(i), Field(field)];
    assert WellStep(p[0]) && WellStep(p[1]) && WellStep(p[2]);
    GrowThree(k, i, field);
    EmptyAtTheEnd(p, map[], st);
  }

  lemma GrowThree(k: string, i: nat, field: string)
    ensures var p := [Field(k), Index(i), Field(field)];
            && Grow(Some(Map(map[])), p, Str("")) == Some(Map(map[k := List(SetIndex([], i, Map(map[field := Str("")])))]))
            && Left(Some(Map(map[])), p) == Map(map[k := List([])])
  {
    hide Grow, SetIndex;
    var p := [Field(k), Index(i), Field(field)];
    var q, r := p[1..], p[2..];
    assert q[1..] == r && r[1..] == [] && p[1..] == q;
    GrowAtKey(p, Str(""), map[]);
    GrowFits(q, Str(""), Null);
    GrowAtIndex(q, Str(""), []);
    GrowFits(r, Str(""), Null);
    GrowAtKey(r, Str(""), map[]);
    GrowNothing(None, Str(""));
    LeftAtKey(p, map[]);
  }
}
