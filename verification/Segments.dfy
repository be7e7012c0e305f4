/** pipelineGroups of pkg/controller/calendar/util.go: the runs of consecutive Always pipelines. */
module Segments {
  import opened CalendarTypes
  import opened EventSync

  /** [b, e] is a LeaderOnly pipeline alone, or Always pipelines that could not be extended. */
  ghost predicate IsSegment(pipelines: seq<Pipeline>, b: int, e: int) {
    && 0 <= b <= e < |pipelines|
    && (pipelines[b].leaderOnly ==> b == e)
    && (!pipelines[b].leaderOnly ==>
         && (forall j :: b <= j <= e ==> !pipelines[j].leaderOnly)
         && (b > 0 ==> pipelines[b - 1].leaderOnly)
         && (e + 1 < |pipelines| ==> pipelines[e + 1].leaderOnly))
  }

  lemma {:induction false} BeginIsFirst(pipelines: seq<Pipeline>, i: nat)
    requires i < |pipelines|
    ensures var b := SegmentBegin(pipelines, i);
            && (pipelines[i].leaderOnly ==> b == i)
            && (!pipelines[i].leaderOnly ==>
                 (forall j :: b <= j <= i ==> !pipelines[j].leaderOnly) && (b > 0 ==> pipelines[b - 1].leaderOnly))
  {
    if !pipelines[i].leaderOnly && i > 0 && !pipelines[i - 1].leaderOnly {
      BeginIsFirst(pipelines, i - 1);
    }
  }

  lemma {:induction false} EndIsLast(pipelines: seq<Pipeline>, i: nat)
    requires i < |pipelines|
    ensures var e := SegmentEnd(pipelines, i);
            && (pipelines[i].leaderOnly ==> e == i)
            && (!pipelines[i].leaderOnly ==>
                 (forall j :: i <= j <= e ==> !pipelines[j].leaderOnly) && (e + 1 < |pipelines| ==> pipelines[e + 1].leaderOnly))
    decreases |pipelines| - i
  {
    if !pipelines[i].leaderOnly && i + 1 < |pipelines| && !pipelines[i + 1].leaderOnly {
      EndIsLast(pipelines, i + 1);
    }
  }

  /** The segment computed for i is the one maximal segment that holds i. */
  lemma SegmentIsMaximal(pipelines: seq<Pipeline>, i: nat, b: int, e: int)
    requires i < |pipelines|
    ensures IsSegment(pipelines, b, e) && b <= i <= e <==> b == SegmentBegin(pipelines, i) && e == SegmentEnd(pipelines, i)
  {
    BeginIsFirst(pipelines, i);
    EndIsLast(pipelines, i);
  }

  /** All pipelines of a segment have the same one. */
  lemma SegmentIsShared(pipelines: seq<Pipeline>, i: nat, j: nat)
    requires i < |pipelines| && SegmentBegin(pipelines, i) <= j <= SegmentEnd(pipelines, i)
    ensures SegmentBegin(pipelines, j) == SegmentBegin(pipelines, i) && SegmentEnd(pipelines, j) == SegmentEnd(pipelines, i)
  {
    SegmentIsMaximal(pipelines, i, SegmentBegin(pipelines, i), SegmentEnd(pipelines, i));
    SegmentIsMaximal(pipelines, j, SegmentBegin(pipelines, i), SegmentEnd(pipelines, i));
  }

  // ------------------------------------------------------------------ names and indexes

  ghost predicate NamesDiffer(pipelines: seq<Pipeline>) {
    forall i, j :: 0 <= i < j < |pipelines| ==> pipelines[i].name != pipelines[j].name
  }

  lemma {:induction false} IndexOfName(pipelines: seq<Pipeline>, i: nat)
    requires i < |pipelines| && forall j :: i < j < |pipelines| ==> pipelines[j].name != pipelines[i].name
    ensures IndexOf(pipelines, pipelines[i].name) == i
  {
    var n := |pipelines| - 1;
    if i < n {
      IndexOfName(pipelines[..n], i);
    }
  }

  lemma {:induction false} UnknownName(pipelines: seq<Pipeline>, name: string)
    requires forall i :: 0 <= i < |pipelines| ==> pipelines[i].name != name
    ensures IndexOf(pipelines, name) == 0
  {
    if pipelines != [] {
      UnknownName(pipelines[..|pipelines| - 1], name);
    }
  }

  /** The names of the first and the last pipeline of i's segment. */
  function BeginName(pipelines: seq<Pipeline>, i: nat): string
    requires i < |pipelines|
  {
    pipelines[SegmentBegin(pipelines, i)].name
  }

  function EndName(pipelines: seq<Pipeline>, i: nat): string
    requires i < |pipelines|
  {
    pipelines[SegmentEnd(pipelines, i)].name
  }

  lemma BeginStep(pipelines: seq<Pipeline>, i: nat)
    requires i < |pipelines| && forall j :: 0 <= j < |pipelines| ==> pipelines[j].name != ""
    ensures var b, name := OpenBegin(pipelines, i), pipelines[i].name;
            && BeginName(pipelines, i) == (if pipelines[i].leaderOnly || b == "" then name else b)
            && OpenBegin(pipelines, i + 1) == (if pipelines[i].leaderOnly then "" else if b == "" then name else b)
  {
  }

  lemma EndStep(pipelines: seq<Pipeline>, i: nat)
    requires i < |pipelines| && forall j :: 0 <= j < |pipelines| ==> pipelines[j].name != ""
    ensures var e, name := OpenEnd(pipelines, i + 1), pipelines[i].name;
            && EndName(pipelines, i) == (if pipelines[i].leaderOnly || e == "" then name else e)
            && OpenEnd(pipelines, i) == (if pipelines[i].leaderOnly then "" else if e == "" then name else e)
  {
  }

  /** What the index map of the first i pipelines holds. */
  ghost predicate Indexed(pipelines: seq<Pipeline>, i: nat, indexes: map<string, nat>)
    requires i <= |pipelines|
  {
    && (forall j :: 0 <= j < i ==> pipelines[j].name in indexes && indexes[pipelines[j].name] == j)
    && (forall name :: name in indexes ==> exists j :: 0 <= j < i && pipelines[j].name == name)
  }

  lemma NothingIndexed(pipelines: seq<Pipeline>)
    ensures Indexed(pipelines, 0, map[])
  {
  }

  lemma MoreIndexed(pipelines: seq<Pipeline>, i: nat, indexes: map<string, nat>)
    requires NamesDiffer(pipelines) && i < |pipelines| && Indexed(pipelines, i, indexes)
    ensures Indexed(pipelines, i + 1, indexes[pipelines[i].name := i])
  {
  }

  /** A look-up in the index map, where an unknown name gives 0, is IndexOf. */
  lemma IndexesAgree(pipelines: seq<Pipeline>, indexes: map<string, nat>, name: string)
    requires NamesDiffer(pipelines) && Indexed(pipelines, |pipelines|, indexes)
    ensures IndexOf(pipelines, name) == if name in indexes then indexes[name] else 0
  {
    if name in indexes {
      var i :| 0 <= i < |pipelines| && pipelines[i].name == name;
      IndexOfName(pipelines, i);
    } else {
      UnknownName(pipelines, name);
    }
  }

  /** Where the next Always pipeline at i would belong: "" if it would begin a segment. */
  ghost function OpenBegin(pipelines: seq<Pipeline>, i: nat): string
    requires i <= |pipelines|
  {
    if i == 0 || pipelines[i - 1].leaderOnly then "" else pipelines[SegmentBegin(pipelines, i - 1)].name
  }

  ghost function OpenEnd(pipelines: seq<Pipeline>, i: nat): string
    requires i <= |pipelines|
  {
    if i == |pipelines| || pipelines[i].leaderOnly then "" else pipelines[SegmentEnd(pipelines, i)].name
  }

  /** The two loops of the original: the first and the last pipeline of each one's segment. */
  method PipelineGroups(pipelines: seq<Pipeline>) returns (begins: array<string>, ends: array<string>, indexes: map<string, nat>)
    requires NamesDiffer(pipelines) && forall i :: 0 <= i < |pipelines| ==> pipelines[i].name != ""
    ensures fresh(begins) && fresh(ends) && begins.Length == |pipelines| && ends.Length == |pipelines|
    ensures forall i :: 0 <= i < |pipelines| ==>
              begins[i] == BeginName(pipelines, i) && ends[i] == EndName(pipelines, i)
    ensures Indexed(pipelines, |pipelines|, indexes)
  {
    hide Indexed, BeginName, EndName;
    NothingIndexed(pipelines);
    var n := |pipelines|;
    begins := new string[n];
    ends := new string[n];
    indexes := map[];
    var bname := "";
    for i := 0 to n
      invariant bname == OpenBegin(pipelines, i)
      invariant forall j :: 0 <= j < i ==> begins[j] == BeginName(pipelines, j)
      invariant Indexed(pipelines, i, indexes)
    {
      MoreIndexed(pipelines, i, indexes);
      BeginStep(pipelines, i);
      indexes := indexes[pipelines[i].name := i];
      if pipelines[i].leaderOnly {
        begins[i] := pipelines[i].name;
        bname := "";
      } else {
        if bname == "" {
          bname := pipelines[i].name;
        }
        begins[i] := bname;
      }
    }
    var ename := "";
    for i := n downto 0
      invariant ename == OpenEnd(pipelines, i)
      invariant forall j :: i <= j < n ==> ends[j] == EndName(pipelines, j)
      invariant forall j :: 0 <= j < n ==> begins[j] == BeginName(pipelines, j)
    {
      EndStep(pipelines, i);
      if pipelines[i].leaderOnly {
        ends[i] := pipelines[i].name;
        ename := "";
      } else {
        if ename == "" {
          ename := pipelines[i].name;
        }
        ends[i] := ename;
      }
    }
  }
}
