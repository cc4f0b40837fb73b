/** The storyboard scene table of a project workspace: an ordered list of
    scenes that the user edits cell by cell and reorders by drag and drop,
    with each row's start and end time derived from the durations before it. */
module Workspace {
  import opened Common
  import opened Text

  // ------------------------------------------------------------ entities

  datatype SceneStatus = Pending | Generating | Completed | Approved

  /** One row of the table. Durations are whole seconds. */
  datatype Scene = Scene(
    id: string,
    sceneNo: int,
    action: string,
    dialogue: string,
    duration: nat,
    imageUrl: Option<string>,
    videoUrl: Option<string>,
    status: SceneStatus)

  /** The keys of a scene record, as `keyof Scene` names them. */
  datatype Field = IdField | SceneNoField | ActionField | DialogueField
                 | DurationField | ImageUrlField | VideoUrlField | StatusField

  /** A value held by one field. */
  datatype Value = Str(str: string) | Num(num: int) | Link(link: Option<string>) | Tag(tag: SceneStatus)

  /** A single-field edit: which field, and the value it receives. */
  datatype Edit = SetId(id: string) | SetSceneNo(sceneNo: int) | SetAction(action: string)
                | SetDialogue(dialogue: string) | SetDuration(duration: nat)
                | SetImageUrl(imageUrl: Option<string>) | SetVideoUrl(videoUrl: Option<string>)
                | SetStatus(status: SceneStatus)

  function FieldOf(e: Edit): Field
  {
    match e
    case SetId(_) => IdField
    case SetSceneNo(_) => SceneNoField
    case SetAction(_) => ActionField
    case SetDialogue(_) => DialogueField
    case SetDuration(_) => DurationField
    case SetImageUrl(_) => ImageUrlField
    case SetVideoUrl(_) => VideoUrlField
    case SetStatus(_) => StatusField
  }

  function ValueOf(e: Edit): Value
  {
    match e
    case SetId(v) => Str(v)
    case SetSceneNo(v) => Num(v)
    case SetAction(v) => Str(v)
    case SetDialogue(v) => Str(v)
    case SetDuration(v) => Num(v)
    case SetImageUrl(v) => Link(v)
    case SetVideoUrl(v) => Link(v)
    case SetStatus(v) => Tag(v)
  }

  /** Reads one field of a scene. */
  function Get(s: Scene, f: Field): Value
  {
    match f
    case IdField => Str(s.id)
    case SceneNoField => Num(s.sceneNo)
    case ActionField => Str(s.action)
    case DialogueField => Str(s.dialogue)
    case DurationField => Num(s.duration)
    case ImageUrlField => Link(s.imageUrl)
    case VideoUrlField => Link(s.videoUrl)
    case StatusField => Tag(s.status)
  }

  /** A single-field edit of one scene: the edited field takes the new value
      and every other field keeps its old one. */
  function ApplyEdit(s: Scene, e: Edit): (r: Scene)
    ensures forall f :: Get(r, f) == if f == FieldOf(e) then ValueOf(e) else Get(s, f)
  {
    match e
    case SetId(v) => s.(id := v)
    case SetSceneNo(v) => s.(sceneNo := v)
    case SetAction(v) => s.(action := v)
    case SetDialogue(v) => s.(dialogue := v)
    case SetDuration(v) => s.(duration := v)
    case SetImageUrl(v) => s.(imageUrl := v)
    case SetVideoUrl(v) => s.(videoUrl := v)
    case SetStatus(v) => s.(status := v)
  }

  /** Two scenes that agree on every field are the same scene, so the
      contract of ApplyEdit determines its result. */
  lemma FieldsDetermineScene(a: Scene, b: Scene)
    requires forall f :: Get(a, f) == Get(b, f)
    ensures a == b
  {
    assert Get(a, IdField) == Get(b, IdField);
    assert Get(a, SceneNoField) == Get(b, SceneNoField);
    assert Get(a, ActionField) == Get(b, ActionField);
    assert Get(a, DialogueField) == Get(b, DialogueField);
    assert Get(a, DurationField) == Get(b, DurationField);
    assert Get(a, ImageUrlField) == Get(b, ImageUrlField);
    assert Get(a, VideoUrlField) == Get(b, VideoUrlField);
    assert Get(a, StatusField) == Get(b, StatusField);
  }

  // ----------------------------------------------------------- the list

  predicate HasId(s: seq<Scene>, id: string)
  {
    exists i :: 0 <= i < |s| && s[i].id == id
  }

  /** No two rows share an id. */
  predicate UniqueIds(s: seq<Scene>)
  {
    forall i, j :: 0 <= i < |s| && 0 <= j < |s| && i != j ==> s[i].id != s[j].id
  }

  /** `updateScene` on the list: each row whose id matches gets the edit, and
      every other row is kept as it was, in place. */
  function UpdateScenes(s: seq<Scene>, id: string, e: Edit): (r: seq<Scene>)
    ensures |r| == |s|
    ensures forall i :: 0 <= i < |s| ==> r[i] == if s[i].id == id then ApplyEdit(s[i], e) else s[i]
  {
    if s == [] then []
    else [if s[0].id == id then ApplyEdit(s[0], e) else s[0]] + UpdateScenes(s[1..], id, e)
  }

  /** An edit aimed at an id that is not in the list changes nothing. */
  lemma UpdateAbsentId(s: seq<Scene>, id: string, e: Edit)
    requires !HasId(s, id)
    ensures UpdateScenes(s, id, e) == s
  {
    var r := UpdateScenes(s, id, e);
    forall i | 0 <= i < |s| ensures r[i] == s[i] {
      assert s[i].id != id;
    }
  }

  /** Sum of durations, accumulated left to right as `reduce` does. */
  function Total(s: seq<Scene>): nat
  {
    if s == [] then 0 else Total(s[..|s| - 1]) + s[|s| - 1].duration
  }

  /** The total of a concatenation is the sum of the totals. */
  lemma {:induction false} TotalConcat(a: seq<Scene>, b: seq<Scene>)
    ensures Total(a + b) == Total(a) + Total(b)
    decreases |b|
  {
    if b == [] {
      assert a + b == a;
    } else {
      assert (a + b)[..|a + b| - 1] == a + b[..|b| - 1];
      assert (a + b)[|a + b| - 1] == b[|b| - 1];
      TotalConcat(a, b[..|b| - 1]);
    }
  }

  /** The total splits around any row. */
  lemma TotalSplit(s: seq<Scene>, k: nat)
    requires k < |s|
    ensures Total(s) == Total(s[..k]) + s[k].duration + Total(s[k + 1..])
  {
    assert s == s[..k] + [s[k]] + s[k + 1..];
    TotalConcat(s[..k] + [s[k]], s[k + 1..]);
    TotalConcat(s[..k], [s[k]]);
    assert [s[k]][..0] == [];
  }

  /** The total is the sum of every scene's duration, counting from the front. */
  lemma TotalCons(x: Scene, s: seq<Scene>)
    ensures Total([x] + s) == x.duration + Total(s)
  {
    TotalConcat([x], s);
    assert [x][..0] == [];
  }

  /** An edit to a field other than the duration leaves the total unchanged. */
  lemma {:induction false} UpdateKeepsTotal(s: seq<Scene>, id: string, e: Edit)
    requires !e.SetDuration?
    ensures Total(UpdateScenes(s, id, e)) == Total(s)
  {
    if s != [] {
      UpdateKeepsTotal(s[1..], id, e);
      var head := if s[0].id == id then ApplyEdit(s[0], e) else s[0];
      assert Get(head, DurationField) == Get(s[0], DurationField);
      TotalCons(head, UpdateScenes(s[1..], id, e));
      TotalCons(s[0], s[1..]);
      assert [s[0]] + s[1..] == s;
    }
  }

  /** Setting the duration of the one scene with that id changes the total by
      the difference between the new and the old duration. */
  lemma {:induction false} UpdateDurationTotal(s: seq<Scene>, k: nat, d: nat)
    requires k < |s| && UniqueIds(s)
    ensures Total(UpdateScenes(s, s[k].id, SetDuration(d))) + s[k].duration == Total(s) + d
  {
    var r := UpdateScenes(s, s[k].id, SetDuration(d));
    forall i | 0 <= i < |s| && i != k ensures r[i] == s[i] {
      assert s[i].id != s[k].id;
    }
    assert r[..k] == s[..k];
    assert r[k + 1..] == s[k + 1..];
    assert r[k].duration == d;
    TotalSplit(s, k);
    TotalSplit(r, k);
  }

  /** An edit to a field other than the id keeps every row's id in place. */
  lemma UpdateKeepsIds(s: seq<Scene>, id: string, e: Edit, i: nat)
    requires !e.SetId? && i < |s|
    ensures UpdateScenes(s, id, e)[i].id == s[i].id
  {
    var x := s[i];
    assert Get(ApplyEdit(x, e), IdField) == Get(x, IdField);
  }

  // ----------------------------------------------------------- timeline

  /** Start time of row `i`: the durations of the rows before it. */
  function Start(s: seq<Scene>, i: nat): nat
    requires i <= |s|
  {
    Total(s[..i])
  }

  /** End time of row `i`. */
  function End(s: seq<Scene>, i: nat): nat
    requires i < |s|
  {
    Start(s, i) + s[i].duration
  }

  /** The derived time column tiles the whole running time: the first row
      starts at 0, each row ends where the next starts, and the last row ends
      at the total. */
  lemma Contiguous(s: seq<Scene>, i: nat)
    requires i < |s|
    ensures Start(s, 0) == 0
    ensures i + 1 < |s| ==> End(s, i) == Start(s, i + 1)
    ensures i == |s| - 1 ==> End(s, i) == Total(s)
  {
    assert s[..i + 1][..i] == s[..i];
    assert s[..|s|] == s;
  }

  /** Time column entries never overlap and are ordered like the rows. */
  lemma {:induction false} StartMonotone(s: seq<Scene>, i: nat, j: nat)
    requires i < j < |s|
    ensures End(s, i) <= Start(s, j)
    decreases j - i
  {
    Contiguous(s, i);
    if i + 1 < j {
      StartMonotone(s, i + 1, j);
      Contiguous(s, i + 1);
    }
  }

  // -------------------------------------------------------------- lookup

  /** Array.prototype.findIndex on the id: the first row with that id, or -1. */
  function IndexOf(s: seq<Scene>, id: string): (k: int)
    ensures -1 <= k < |s|
    ensures k == -1 <==> !HasId(s, id)
    ensures k >= 0 ==> s[k].id == id && forall j :: 0 <= j < k ==> s[j].id != id
  {
    if s == [] then -1
    else if s[0].id == id then 0
    else
      var k := IndexOf(s[1..], id);
      if k == -1 then -1 else k + 1
  }

  /** Rows are keyed by id: with unique ids, looking a row's own id up finds
      exactly that row. */
  lemma IndexOfOwnId(s: seq<Scene>, i: nat)
    requires i < |s| && UniqueIds(s)
    ensures IndexOf(s, s[i].id) == i
  {
  }

  // ---------------------------------------------------------- reordering

  function Remove(s: seq<Scene>, i: nat): seq<Scene>
    requires i < |s|
  {
    s[..i] + s[i + 1..]
  }

  function Insert(s: seq<Scene>, i: nat, x: Scene): seq<Scene>
    requires i <= |s|
  {
    s[..i] + [x] + s[i..]
  }

  /** dnd-kit's arrayMove: take the scene out at `from` and put it back in at
      `to`. The moved scene lands at `to`, and deleting it from the result
      gives the list with it deleted from its old place, so every other scene
      keeps its relative order. */
  function Move(s: seq<Scene>, from: nat, to: nat): (r: seq<Scene>)
    requires from < |s| && to < |s|
    ensures |r| == |s|
    ensures r[to] == s[from]
    ensures Remove(r, to) == Remove(s, from)
  {
    var t := Remove(s, from);
    assert Remove(Insert(t, to, s[from]), to) == t by {
      assert Insert(t, to, s[from])[..to] == t[..to];
      assert Insert(t, to, s[from])[to + 1..] == t[to..];
    }
    Insert(t, to, s[from])
  }

  /** Where row `i` of the moved list came from. */
  function MovedFrom(from: nat, to: nat, i: nat): nat
  {
    if i == to then from
    else if from < to && from <= i < to then i + 1
    else if to < from && to < i <= from then i - 1
    else i
  }

  /** Row by row: the rows between the two positions shift by one towards the
      old position, and the rows outside that range stay put. */
  lemma MoveAt(s: seq<Scene>, from: nat, to: nat, i: nat)
    requires from < |s| && to < |s| && i < |s|
    ensures MovedFrom(from, to, i) < |s|
    ensures Move(s, from, to)[i] == s[MovedFrom(from, to, i)]
  {
    var t := Remove(s, from);
    assert Move(s, from, to) == t[..to] + [s[from]] + t[to..];
    if i < to {
      assert Move(s, from, to)[i] == t[i];
    } else if i > to {
      assert Move(s, from, to)[i] == t[i - 1];
    }
  }

  /** The move is a permutation of the rows. */
  lemma MovePermutation(s: seq<Scene>, from: nat, to: nat)
    requires from < |s| && to < |s|
    ensures multiset(Move(s, from, to)) == multiset(s)
  {
    var t := Remove(s, from);
    assert s == s[..from] + [s[from]] + s[from + 1..];
    assert multiset(s) == multiset(t) + multiset{s[from]};
    assert Move(s, from, to) == t[..to] + [s[from]] + t[to..];
    assert t == t[..to] + t[to..];
  }

  /** Moving keeps ids unique. */
  lemma MoveKeepsUniqueIds(s: seq<Scene>, from: nat, to: nat)
    requires from < |s| && to < |s| && UniqueIds(s)
    ensures UniqueIds(Move(s, from, to))
  {
    var r := Move(s, from, to);
    forall i, j | 0 <= i < |r| && 0 <= j < |r| && i != j ensures r[i].id != r[j].id {
      MoveAt(s, from, to, i);
      MoveAt(s, from, to, j);
    }
  }

  /** Moving a scene does not change the running time. */
  lemma MoveKeepsTotal(s: seq<Scene>, from: nat, to: nat)
    requires from < |s| && to < |s|
    ensures Total(Move(s, from, to)) == Total(s)
  {
    var t := Remove(s, from);
    var r := Move(s, from, to);
    TotalSplit(s, from);
    TotalConcat(s[..from], s[from + 1..]);
    assert r[..to] == t[..to] && r[to + 1..] == t[to..];
    TotalSplit(r, to);
    TotalConcat(t[..to], t[to..]);
    assert t[..to] + t[to..] == t;
  }

  /** Dragging a scene back to where it came from restores the list. */
  lemma MoveRoundTrip(s: seq<Scene>, from: nat, to: nat)
    requires from < |s| && to < |s|
    ensures Move(Move(s, from, to), to, from) == s
  {
    var r := Move(s, from, to);
    var t := Remove(s, from);
    assert Remove(r, to) == t;
    assert Move(r, to, from) == t[..from] + [s[from]] + t[from..];
    assert t[..from] == s[..from];
    assert t[from..] == s[from + 1..];
  }

  // ------------------------------------------------------------- display

  /** `formatTime`: minutes and seconds, each padded to two digits. */
  function FormatTime(seconds: nat): string
  {
    Clock(seconds / 60, seconds % 60)
  }

  /** Minutes and seconds joined by a colon, each padded to two digits. */
  function Clock(mins: nat, secs: nat): string
  {
    PadStart(NatToString(mins), 2) + ":" + PadStart(NatToString(secs), 2)
  }

  /** The formatted time reads back as the seconds it came from: the last two
      characters are the seconds in 00..59, they follow a colon, and the
      digits before it are the whole minutes (two of them below 100 minutes). */
  lemma FormatTimeReadsBack(seconds: nat)
    ensures var r := FormatTime(seconds);
      && |r| >= 5 && r[|r| - 3] == ':'
      && AllDigits(r[..|r| - 3]) && AllDigits(r[|r| - 2..])
      && DigitsValue(r[|r| - 2..]) < 60
      && DigitsValue(r[..|r| - 3]) * 60 + DigitsValue(r[|r| - 2..]) == seconds
      && (seconds < 6000 <==> |r| == 5)
  {
    var mins, secs := seconds / 60, seconds % 60;
    DivisionByMinute(seconds);
    ClockReadsBack(mins, secs);
    assert FormatTime(seconds) == Clock(mins, secs);
  }

  /** A clock text splits at the colon three from the end into a digit field
      of the minutes and two digits of the seconds. */
  lemma ClockReadsBack(mins: nat, secs: nat)
    requires secs < 60
    ensures var r := Clock(mins, secs);
      && |r| >= 5 && r[|r| - 3] == ':'
      && AllDigits(r[..|r| - 3]) && AllDigits(r[|r| - 2..])
      && DigitsValue(r[..|r| - 3]) == mins && DigitsValue(r[|r| - 2..]) == secs
      && (mins < 100 <==> |r| == 5)
  {
    var m := PadStart(NatToString(mins), 2);
    var sec := PadStart(NatToString(secs), 2);
    PaddedField(mins);
    PaddedField(secs);
    SecondsFieldWidth(secs);
    MinutesFieldWidth(mins);
    var r := Clock(mins, secs);
    FieldsReadBack(r, m, sec);
  }

  /** In "minutes:seconds" with a two-character seconds field, the colon
      sits three from the end and splits the text back into the fields. */
  lemma FieldsReadBack(r: string, m: string, sec: string)
    requires r == m + ":" + sec && |sec| == 2
    ensures |r| == |m| + 3 && r[|r| - 3] == ':'
    ensures r[..|r| - 3] == m && r[|r| - 2..] == sec
  {
    assert r[..|r| - 3] == m;
    assert r[|r| - 2..] == sec;
  }

  lemma DivisionByMinute(seconds: nat)
    ensures (seconds / 60) * 60 + seconds % 60 == seconds
    ensures seconds / 60 < 100 <==> seconds < 6000
  {
  }

  /** A padded field is a digit string of at least two characters that
      reads back as the number. */
  lemma PaddedField(n: nat)
    ensures |PadStart(NatToString(n), 2)| >= 2
    ensures AllDigits(PadStart(NatToString(n), 2))
    ensures DigitsValue(PadStart(NatToString(n), 2)) == n
  {
    PadStartValue(NatToString(n), 2);
    NatToStringValue(n);
  }

  /** A number below 60 pads to exactly two digits. */
  lemma SecondsFieldWidth(n: nat)
    requires n < 60
    ensures |PadStart(NatToString(n), 2)| == 2
  {
    if n >= 10 {
      assert NatToString(n) == NatToString(n / 10) + [DigitChar(n % 10)];
    }
  }

  /** Minutes keep two digits exactly while below 100. */
  lemma MinutesFieldWidth(n: nat)
    ensures |PadStart(NatToString(n), 2)| == 2 <==> n < 100
  {
    if n >= 10 {
      assert NatToString(n) == NatToString(n / 10) + [DigitChar(n % 10)];
      if n >= 100 {
        assert n / 10 >= 10;
      }
    }
  }

  // ------------------------------------------------------- initial data

  const INITIAL_DATA: seq<Scene> := [
    Scene("1", 1, "主人公が路地裏を走る。息を切らしている。", "（ハァハァ……）", 3,
          Some("https://placehold.co/300x169/222/FFF?text=Scene+1"), None, Completed),
    Scene("2", 2, "エナジードリンクを取り出し、一口飲む。", "これさえあれば……！", 2,
          None, None, Pending),
    Scene("3", 3, "目が光り、猛スピードで壁を駆け上がる。", "いくぞおおお！", 4,
          None, None, Pending)
  ]

  /** The mock table opens on three scenes of 3, 2 and 4 seconds, shown as
      00:00-00:03, 00:03-00:05 and 00:05-00:09, nine seconds in all. */
  lemma InitialTimeline()
    ensures UniqueIds(INITIAL_DATA)
    ensures Start(INITIAL_DATA, 0) == 0 && End(INITIAL_DATA, 0) == 3
    ensures Start(INITIAL_DATA, 1) == 3 && End(INITIAL_DATA, 1) == 5
    ensures Start(INITIAL_DATA, 2) == 5 && End(INITIAL_DATA, 2) == 9
    ensures Total(INITIAL_DATA) == 9
  {
    var s := INITIAL_DATA;
    assert s[..0] == [];
    assert s[..1][..0] == [];
    assert s[..2][..1] == s[..1];
    assert s[..3] == s;
    assert s[..3][..2] == s[..2];
  }

  // ---------------------------------------------------------- the table

  /** The component's `data` state and the handlers that replace it. */
  class WorkspaceTab {
    var data: seq<Scene>

    constructor ()
      ensures data == INITIAL_DATA
    {
      data := INITIAL_DATA;
    }

    /** `updateScene(id, field, value)`. */
    method UpdateScene(id: string, e: Edit)
      modifies this
      ensures data == UpdateScenes(old(data), id, e)
    {
      data := UpdateScenes(data, id, e);
    }

    /** The footer's total duration. */
    function TotalDuration(): nat
      reads this
    {
      Total(data)
    }

    /** The time column of row `index`: a running sum over the rows above it,
        then the row's own duration. */
    method RowTime(index: nat) returns (start: nat, end: nat)
      requires index < |data|
      ensures start == Start(data, index)
      ensures end == End(data, index)
    {
      start := 0;
      var i := 0;
      while i < index
        invariant 0 <= i <= index
        invariant start == Total(data[..i])
      {
        assert data[..i + 1][..i] == data[..i];
        start := start + data[i].duration;
        i := i + 1;
      }
      end := start + data[index].duration;
    }

    /** `handleDragEnd`: nothing happens without a drop target or when a row
        is dropped on itself; otherwise the dragged row moves to the target's
        index. dnd-kit reports only ids the SortableContext was given, which
        are the ids of `data`. */
    method HandleDragEnd(activeId: string, overId: Option<string>)
      requires HasId(data, activeId)
      requires overId.Some? ==> HasId(data, overId.value)
      modifies this
      ensures overId.None? || overId.value == activeId ==> data == old(data)
      ensures overId.Some? && overId.value != activeId ==>
        data == Move(old(data), IndexOf(old(data), activeId), IndexOf(old(data), overId.value))
    {
      if overId.Some? && activeId != overId.value {
        var oldIndex := IndexOf(data, activeId);
        var newIndex := IndexOf(data, overId.value);
        data := Move(data, oldIndex, newIndex);
      }
    }
  }
}
