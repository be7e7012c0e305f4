/** Which texts the parser accepts as a key and its value, and what it makes of each: for every
    text and every map, empty keys, misfits and broken-off ends included. */
module StrvalsGrammar {
  import opened Prelude
  import opened Strvals
  import opened StrvalsRoundTrip
  import opened StrvalsEnd

  // ------------------------------------------------------------------ the grammar

  /** Nothing is left; a lone backslash escapes nothing. */
  predicate IsOver(s: string) {
    s == "" || s == "\\"
  }

  /** From a key on, s spells path p; behind it stand an equals sign and the tail, or the input has ended,
      with no key begun. */
  ghost predicate SpellsKey(s: string, p: Path, tail: Option<string>)
    decreases |p|, 1
  {
    p != [] && p[0].Field? &&
    var r := RunesUntil(s, KEYEND);
    r.text == p[0].key &&
    if |p| == 1 then (if tail.Some? then r.last == Some('=') && r.rest == tail.value else IsOver(s))
    else if p[1].Field? then r.last == Some('.') && SpellsKey(r.rest, p[1..], tail)
    else r.last == Some('[') && SpellsIndex(r.rest, p[1..], tail)
  }

  ghost predicate SpellsIndex(s: string, p: Path, tail: Option<string>)
    requires p != [] && p[0].Index?
    decreases |p|, 0
  {
    var x := RunesUntil(s, {']'});
    x.last.Some? && ParseInt(x.text) == Some(p[0].i) && SpellsItem(x.rest, p[1..], tail)
  }

  /** The same behind an index. */
  ghost predicate SpellsItem(s: string, q: Path, tail: Option<string>)
    decreases |q|, 2
  {
    if q == [] then (if tail.Some? then s != "" && s[0] == '=' && s[1..] == tail.value else IsOver(s))
    else if q[0].Field? then s != "" && s[0] == '.' && SpellsKey(s[1..], q, tail)
    else s != "" && s[0] == '[' && SpellsIndex(s[1..], q, tail)
  }

  // ------------------------------------------------------------------ writing, with empty keys

  predicate Alike(a: Value, b: Value) {
    (a.Map? && b.Map?) || (a.List? && b.List? && |a.items| == |b.items|)
  }

  /** Grow, for any path: nothing is put under an empty key, but a map or list found there is changed
      in place; a map that is still empty is none. */
  function Put(old_: Option<Value>, p: Path, v: Value): Option<Value>
    decreases |p|
  {
    if p == [] then Some(v)
    else
      match p[0]
      case Field(k) =>
        if old_.Some? && !old_.value.Map? then None
        else
          var m := if old_.Some? then old_.value.entries else map[];
          if p == [Field("")] then Some(Map(m))
          else
            match Put(if k in m then Some(m[k]) else None, p[1..], v) {
              case None => None
              case Some(x) =>
                if |p| > 1 && x == Map(map[]) then None
                else Some(Map(if k != "" || (k in m && Alike(m[k], x)) then m[k := x] else m))
            }
      case Index(i) =>
        if old_.Some? && !old_.value.List? then None
        else
          var xs := if old_.Some? then old_.value.items else [];
          match Put(if |p| == 1 then None else Seen(xs, i, p[1]), p[1..], v) {
            case None => None
            case Some(x) => Some(List(SetIndex(xs, i, x)))
          }
  }

  /** Without empty keys this is Grow. */
  lemma {:induction false} PutIsGrow(old_: Option<Value>, p: Path, v: Value)
    requires forall j :: 0 <= j < |p| && p[j].Field? ==> p[j].key != ""
    ensures Put(old_, p, v) == Grow(old_, p, v)
    ensures p != [] && p[0].Field? ==> Put(old_, p, v) != Some(Map(map[]))
    decreases |p|
  {
    hide SetIndex, Seen;
    if p != [] {
      match p[0]
      case Field(k) =>
        assert k != "";
        if old_.None? || old_.value.Map? {
          var m := if old_.Some? then old_.value.entries else map[];
          PutIsGrow(if k in m then Some(m[k]) else None, p[1..], v);
          var x := Put(if k in m then Some(m[k]) else None, p[1..], v);
          assert x.Some? ==> k in m[k := x.value];
          if |p| > 1 && p[1].Index? {
            PutTakes(if k in m then Some(m[k]) else None, p[1..], v);
          }
        }
      case Index(i) =>
        if old_.None? || old_.value.List? {
          var xs := if old_.Some? then old_.value.items else [];
          PutIsGrow(if |p| == 1 then None else Seen(xs, i, p[1]), p[1..], v);
        }
    }
  }

  lemma PutTakes(old_: Option<Value>, p: Path, v: Value)
    requires p != []
    ensures Put(old_, p, v).Some? ==> Takes(Put(old_, p, v).value, p[0])
  {
  }

  // ------------------------------------------------------------------ what a spelled text does

  /** A tail is a value; where there is none the value is empty and the input has ended. */
  function TailRead(tail: Option<string>, st: bool): ValueRead {
    if tail.Some? then ReadValue(tail.value, st) else ReadValue("", st)
  }

  /** The input has ended, and is reported to have: only an index passes over the end behind an equals sign. */
  predicate Ended(p: Path, tail: Option<string>) {
    tail.None? || (tail.value == "" && EndsInField(p))
  }

  /** What becomes of data where path p and a tail are spelled. */
  ghost predicate KeyEnds(r: KeyRead, data: Entries, p: Path, tail: Option<string>, st: bool) {
    var v := TailRead(tail, st);
    if v.end.Fail? then r.end.Fail?
    else
      var x := Put(Some(Map(data)), p, v.value.value);
      if x.None? then r.end.Fail?
      else if Ended(p, tail) then r.end.Eof? && (r.data == map[] <==> x.value == Map(map[]))
      else x.value.Map? && r == KeyRead(x.value.entries, v.rest, More)
  }

  ghost predicate ItemEnds(r: ItemRead, list: seq<Value>, i: nat, q: Path, tail: Option<string>, st: bool) {
    var v := TailRead(tail, st);
    if v.end.Fail? then r.end.Fail? || r.end.Panic?
    else
      var x := Put(if q == [] then None else Seen(list, i, q[0]), q, v.value.value);
      if x.None? then r.end.Fail? || r.end.Panic?
      else if Ended(q, tail) then r.end.Eof?
      else r == ItemRead(SetIndex(list, i, x.value), v.rest, More)
  }

  // The parser, one rune after a key or an index at a time, for any key.

  lemma DotStep(s: string, data: Entries, st: bool, k: string, rest: string)
    requires RunesUntil(s, KEYEND) == Read(k, Some('.'), rest)
    ensures var r := Key(s, data, st);
            if k in data && !data[k].Map? then r.end.Fail?
            else
              var inner := Key(rest, if k in data then data[k].entries else map[], st);
              if inner.data == map[] then r.end.Fail?
              else r == KeyRead(if k in data then data[k := Map(inner.data)] else Set(data, k, Map(inner.data)), inner.rest, inner.end)
  {
    hide RunesUntil;
  }

  lemma BracketStep(s: string, data: Entries, st: bool, k: string, rest: string, i: int, rest': string)
    requires RunesUntil(s, KEYEND) == Read(k, Some('['), rest)
    requires var x := RunesUntil(rest, {']'}); x.last.Some? && x.rest == rest' && ParseInt(x.text) == Some(i)
    ensures var r := Key(s, data, st);
            if k in data && !data[k].List? then r.end.Fail?
            else
              var l := Item(rest', if k in data then data[k].items else [], i, st);
              if l.end.Panic? then r.end.Fail? else r == KeyRead(SetList(data, k, l.list), l.rest, l.end)
  {
    hide RunesUntil, ParseInt;
  }

  lemma EqualsStep(s: string, data: Entries, st: bool, k: string, t: string)
    requires RunesUntil(s, KEYEND) == Read(k, Some('='), t)
    ensures var v := ReadValue(t, st);
            Key(s, data, st) == KeyRead(if v.end.Fail? then data else Set(data, k, v.value.value), v.rest, v.end)
  {
    hide RunesUntil, ReadValue;
  }

  // Writing, one step at a time.

  lemma PutAtKey(p: Path, v: Value, data: Entries)
    requires p != [] && p[0].Field? && p != [Field("")]
    ensures var k := p[0].key;
            var x := Put(if k in data then Some(data[k]) else None, p[1..], v);
            Put(Some(Map(data)), p, v) ==
              if x.None? || (|p| > 1 && x.value == Map(map[])) then None
              else Some(Map(if k != "" || (k in data && Alike(data[k], x.value)) then data[k := x.value] else data))
  {
  }

  lemma PutFits(p: Path, v: Value, x: Value)
    requires p != []
    ensures Put(None, p, v) == Put(Some(if p[0].Field? then Map(map[]) else List([])), p, v)
    ensures !Takes(x, p[0]) ==> Put(Some(x), p, v) == None
  {
  }

  lemma PutAtIndex(p: Path, v: Value, xs: seq<Value>)
    requires p != [] && p[0].Index?
    ensures var x := Put(if p[1..] == [] then None else Seen(xs, p[0].i, p[1..][0]), p[1..], v);
            Put(Some(List(xs)), p, v) == if x.Some? then Some(List(SetIndex(xs, p[0].i, x.value))) else None
  {
  }

  lemma EndedNext(p: Path, tail: Option<string>)
    requires |p| > 1
    ensures Ended(p[1..], tail) == Ended(p, tail)
  {
    NextEnd(p);
  }

  // One step of the text, and what it makes of what the rest makes.

  lemma LastFollows(s: string, p: Path, tail: Option<string>, data: Entries, st: bool)
    requires SpellsKey(s, p, tail) && |p| == 1
    ensures KeyEnds(Key(s, data, st), data, p, tail, st)
  {
    hide RunesUntil, ReadValue;
    var k := p[0].key;
    assert p == [Field(k)];
    if tail.Some? {
      var v := ReadValue(tail.value, st);
      EqualsStep(s, data, st, k, tail.value);
      ValueEnds(tail.value, st);
      if k != "" && !v.end.Fail? {
        PutAtKey(p, v.value.value, data);
        assert k in data[k := v.value.value];
      }
    } else {
      ValueEnds("", st);
      OverAt(s);
    }
  }

  lemma OverAt(s: string)
    requires IsOver(s)
    ensures RunesUntil(s, KEYEND) == Read("", None, "") && RunesUntil(s, ITEMEND) == Read("", None, "")
  {
  }

  lemma ValueEnds(t: string, st: bool)
    ensures ReadValue(t, st).end.Eof? <==> t == ""
    ensures t == "" ==> ReadValue(t, st) == ValueRead(Some(Str("")), "", Eof)
  {
  }

  lemma DotFollows(p: Path, tail: Option<string>, data: Entries, st: bool, inner: KeyRead, r: KeyRead)
    requires |p| > 1 && p[0].Field? && p[1].Field? && (p[0].key in data ==> data[p[0].key].Map?)
    requires KeyEnds(inner, if p[0].key in data then data[p[0].key].entries else map[], p[1..], tail, st)
    requires if inner.data == map[] then r.end.Fail?
             else r == KeyRead(if p[0].key in data then data[p[0].key := Map(inner.data)] else Set(data, p[0].key, Map(inner.data)), inner.rest, inner.end)
    ensures KeyEnds(r, data, p, tail, st)
  {
    hide Put, ReadValue;
    var v := TailRead(tail, st);
    if !v.end.Fail? {
      PutAtKey(p, v.value.value, data);
      PutFits(p[1..], v.value.value, Null);
      EndedNext(p, tail);
      assert p[0].key in data[p[0].key := Map(inner.data)];
    }
  }

  lemma BracketFollows(p: Path, tail: Option<string>, data: Entries, st: bool, l: ItemRead, r: KeyRead)
    requires |p| > 1 && p[0].Field? && p[1].Index? && (p[0].key in data ==> data[p[0].key].List?)
    requires var list := if p[0].key in data then data[p[0].key].items else [];
             ItemEnds(l, list, p[1].i, p[2..], tail, st) && (!l.end.More? ==> |l.list| == |list|)
    requires if l.end.Panic? then r.end.Fail? else r == KeyRead(SetList(data, p[0].key, l.list), l.rest, l.end)
    ensures KeyEnds(r, data, p, tail, st)
  {
    hide Put, ReadValue, SetIndex;
    var v, q := TailRead(tail, st), p[1..];
    if !v.end.Fail? {
      assert q[1..] == p[2..];
      PutAtKey(p, v.value.value, data);
      PutFits(q, v.value.value, Null);
      PutAtIndex(q, v.value.value, if p[0].key in data then data[p[0].key].items else []);
      EndedNext(p, tail);
      EndAfterIndex(q);
    }
  }

  lemma MisfitFollows(p: Path, tail: Option<string>, data: Entries, st: bool, r: KeyRead)
    requires |p| > 1 && p[0].Field? && p[0].key in data && !Takes(data[p[0].key], p[1]) && r.end.Fail?
    ensures KeyEnds(r, data, p, tail, st)
  {
    hide Put, ReadValue;
    var v := TailRead(tail, st);
    if !v.end.Fail? {
      PutAtKey(p, v.value.value, data);
      PutFits(p[1..], v.value.value, data[p[0].key]);
    }
  }

  /** A key follows its spelling. */
  lemma {:induction false} KeyFollows(s: string, p: Path, tail: Option<string>, data: Entries, st: bool)
    requires SpellsKey(s, p, tail)
    ensures KeyEnds(Key(s, data, st), data, p, tail, st)
    decreases |p|, 0
  {
    hide RunesUntil, ParseInt, ReadValue, Key, Item, KeyEnds, ItemEnds;
    var r, k, q := RunesUntil(s, KEYEND), p[0].key, p[1..];
    if |p| == 1 {
      LastFollows(s, p, tail, data, st);
    } else if p[1].Field? {
      DotStep(s, data, st, k, r.rest);
      if k !in data || data[k].Map? {
        var inner := if k in data then data[k].entries else map[];
        KeyFollows(r.rest, q, tail, inner, st);
        DotFollows(p, tail, data, st, Key(r.rest, inner, st), Key(s, data, st));
      } else {
        MisfitFollows(p, tail, data, st, Key(s, data, st));
      }
    } else {
      var x := RunesUntil(r.rest, {']'});
      BracketStep(s, data, st, k, r.rest, p[1].i, x.rest);
      if k !in data || data[k].List? {
        var list := if k in data then data[k].items else [];
        assert q[1..] == p[2..];
        ItemFollows(x.rest, p[2..], tail, list, p[1].i, st);
        BracketFollows(p, tail, data, st, Item(x.rest, list, p[1].i, st), Key(s, data, st));
      } else {
        MisfitFollows(p, tail, data, st, Key(s, data, st));
      }
    }
  }

  lemma {:induction false} ItemFollows(s: string, q: Path, tail: Option<string>, list: seq<Value>, i: nat, st: bool)
    requires SpellsItem(s, q, tail)
    ensures ItemEnds(Item(s, list, i, st), list, i, q, tail, st)
    decreases |q|, 1
  {
    hide RunesUntil, ParseInt, ReadValue, Key, Item, KeyEnds;
    if q == [] {
      NoStepFollows(s, tail, list, i, st);
    } else if q[0].Field? {
      ItemInto(s, list, i, st);
      var m := if i < |list| && list[i].Map? then list[i].entries else map[];
      KeyFollows(s[1..], q, tail, m, st);
      IntoFollows(q, tail, list, i, st, Key(s[1..], m, st), Item(s, list, i, st));
    } else {
      var x := RunesUntil(s[1..], {']'});
      if i < |list| && !list[i].Null? && !list[i].List? {
        ItemAtBracket(s, list, i, st, q[0].i, x.rest);
        NoListFollows(q, tail, list, i, st, Item(s, list, i, st));
      } else {
        ItemAcross(s, list, i, st, q[0].i, x.rest);
        var inner := if i < |list| && list[i].List? then list[i].items else [];
        ItemFollows(x.rest, q[1..], tail, inner, q[0].i, st);
        AcrossFollows(q, tail, list, i, st, Item(x.rest, inner, q[0].i, st), Item(s, list, i, st));
      }
    }
  }

  lemma NoStepFollows(s: string, tail: Option<string>, list: seq<Value>, i: nat, st: bool)
    requires SpellsItem(s, [], tail)
    ensures ItemEnds(Item(s, list, i, st), list, i, [], tail, st)
  {
    hide RunesUntil, ReadValue, SetIndex;
    if tail.Some? {
      ValueEnds(tail.value, st);
      EqualsItem(s, list, i, st);
    } else {
      ValueEnds("", st);
      OverAt(s);
    }
  }

  lemma EqualsItem(s: string, list: seq<Value>, i: nat, st: bool)
    requires s != "" && s[0] == '='
    ensures var v := ReadValue(s[1..], st);
            if v.end.Fail? then Item(s, list, i, st).end.Fail? else Item(s, list, i, st) == ItemRead(SetIndex(list, i, v.value.value), v.rest, More)
  {
    assert RunesUntil(s, ITEMEND) == Read("", Some('='), s[1..]);
    hide RunesUntil, ReadValue, SetIndex;
  }

  lemma IntoFollows(q: Path, tail: Option<string>, list: seq<Value>, i: nat, st: bool, inner: KeyRead, r: ItemRead)
    requires q != [] && q[0].Field?
    requires KeyEnds(inner, if i < |list| && list[i].Map? then list[i].entries else map[], q, tail, st)
    requires r == if inner.end.More? then ItemRead(SetIndex(list, i, Map(inner.data)), inner.rest, More)
                  else ItemRead(if i < |list| then list[i := Map(inner.data)] else list, inner.rest, inner.end)
    ensures ItemEnds(r, list, i, q, tail, st)
  {
    hide Put, ReadValue, SetIndex;
    var v := TailRead(tail, st);
    if !v.end.Fail? {
      PutFits(q, v.value.value, Null);
    }
  }

  lemma NoListFollows(q: Path, tail: Option<string>, list: seq<Value>, i: nat, st: bool, r: ItemRead)
    requires q != [] && q[0].Index? && i < |list| && !list[i].Null? && !list[i].List? && r.end.Panic?
    ensures ItemEnds(r, list, i, q, tail, st)
  {
    hide Put, ReadValue, SetIndex;
    var v := TailRead(tail, st);
    if !v.end.Fail? {
      PutFits(q, v.value.value, list[i]);
    }
  }

  lemma AcrossFollows(q: Path, tail: Option<string>, list: seq<Value>, i: nat, st: bool, inner: ItemRead, r: ItemRead)
    requires q != [] && q[0].Index? && (i >= |list| || list[i].Null? || list[i].List?)
    requires ItemEnds(inner, if i < |list| && list[i].List? then list[i].items else [], q[0].i, q[1..], tail, st)
    requires var found := i < |list| && list[i].List?;
             r == if inner.end.More? then ItemRead(SetIndex(list, i, List(inner.list)), inner.rest, More)
                  else ItemRead(if found then list[i := List(inner.list)] else list, inner.rest, inner.end)
    ensures ItemEnds(r, list, i, q, tail, st)
  {
    hide Put, ReadValue, SetIndex;
    var v := TailRead(tail, st);
    if !v.end.Fail? {
      PutFits(q, v.value.value, Null);
      PutAtIndex(q, v.value.value, if i < |list| && list[i].List? then list[i].items else []);
      EndAfterIndex(q);
    }
  }

  // ------------------------------------------------------------------ nothing else is accepted

  /** What does not fail is spelled. */
  lemma {:induction false} KeyIsSpelled(s: string, data: Entries, st: bool) returns (p: Path, tail: Option<string>)
    requires !Key(s, data, st).end.Fail?
    ensures SpellsKey(s, p, tail)
    decreases |s|, 0
  {
    hide RunesUntil, ParseInt, ReadValue;
    var r := RunesUntil(s, KEYEND);
    var k := r.text;
    if r.last.None? {
      EndsOver(s, KEYEND);
      return [Field("")], None;
    } else if r.last == Some('=') {
      return [Field(k)], Some(r.rest);
    } else if r.last == Some('.') {
      var q, t := KeyIsSpelled(r.rest, if k in data then data[k].entries else map[], st);
      p, tail := [Field(k)] + q, t;
      assert p[1..] == q;
    } else {
      var x := RunesUntil(r.rest, {']'});
      var i := ParseInt(x.text).value;
      var q, t := ItemIsSpelled(x.rest, if k in data then data[k].items else [], i, st);
      p, tail := [Field(k), Index(i)] + q, t;
      assert p[1..] == [Index(i)] + q && p[1..][1..] == q;
    }
  }

  lemma {:induction false} ItemIsSpelled(s: string, list: seq<Value>, i: int, st: bool) returns (q: Path, tail: Option<string>)
    requires var r := Item(s, list, i, st); !r.end.Fail? && !r.end.Panic?
    ensures i >= 0 && SpellsItem(s, q, tail)
    decreases |s|, 0
  {
    hide RunesUntil, ParseInt, ReadValue;
    var r := RunesUntil(s, ITEMEND);
    if r.last.None? {
      EndsOver(s, ITEMEND);
      return [], None;
    }
    EndsAtOnce(s, ITEMEND);
    if r.last == Some('=') {
      return [], Some(r.rest);
    } else if r.last == Some('.') {
      q, tail := KeyIsSpelled(s[1..], if i < |list| && list[i].Map? then list[i].entries else map[], st);
    } else {
      var x := RunesUntil(s[1..], {']'});
      var j := ParseInt(x.text).value;
      var more, t := ItemIsSpelled(x.rest, if i < |list| && list[i].List? then list[i].items else [], j, st);
      q, tail := [Index(j)] + more, t;
      assert q[1..] == more;
    }
  }

  lemma EndsOver(s: string, stop: set<char>)
    requires RunesUntil(s, stop).last.None? && RunesUntil(s, stop).text == ""
    ensures IsOver(s)
  {
  }

  lemma EndsAtOnce(s: string, stop: set<char>)
    requires RunesUntil(s, stop).last.Some? && RunesUntil(s, stop).text == ""
    ensures s != "" && RunesUntil(s, stop) == Read("", Some(s[0]), s[1..])
  {
  }

  /** The parser accepts a text as a key with its value exactly if the text spells a path whose tail is
      a value and that fits the map. It then writes the value there and leaves what stands behind
      it, or has come to the end. */
  lemma KeyIsExact(s: string, data: Entries, st: bool)
    ensures forall p, tail :: SpellsKey(s, p, tail) ==> KeyEnds(Key(s, data, st), data, p, tail, st)
    ensures (forall p, tail :: !SpellsKey(s, p, tail)) ==> Key(s, data, st).end.Fail?
  {
    hide Key, SpellsKey, KeyEnds;
    forall p, tail | SpellsKey(s, p, tail) ensures KeyEnds(Key(s, data, st), data, p, tail, st) {
      KeyFollows(s, p, tail, data, st);
    }
    if !Key(s, data, st).end.Fail? {
      var p, tail := KeyIsSpelled(s, data, st);
    }
  }
}
