/** Messages in a native log: the incremental projection agrees with the batch fold. */
module NativeLogMessages {
  import opened Common
  import opened NativeLogModel

  ghost predicate Before(events: seq<Event>, n: nat, id: string, role: Role)
    requires n <= |events|
  {
    exists j :: 0 <= j < n && events[j].Message? && events[j].row.id == id && events[j].row.role == role
  }

  ghost predicate OpenBefore(events: seq<Event>, n: nat, id: string)
    requires n <= |events|
  {
    exists j :: 0 <= j < n && events[j].Message? && events[j].row.id == id && Unclassified(events[j].row)
  }

  /**
   No message is logged twice; only unclassified messages are classified, later, and once; the record of a user
   message follows it, once.
   */
  ghost predicate RowsOk(events: seq<Event>) {
    (forall i, j :: 0 <= i < j < |events| && events[i].Message? && events[j].Message? ==>
       events[i].row.id != events[j].row.id) &&
    (forall i :: 0 <= i < |events| && events[i].Classified? ==> OpenBefore(events, i, events[i].id)) &&
    (forall i, j :: 0 <= i < j < |events| && events[i].Classified? && events[j].Classified? ==>
       events[i].id != events[j].id) &&
    (forall i :: 0 <= i < |events| && events[i].UserMessage? ==> Before(events, i, events[i].id, User)) &&
    forall i, j :: 0 <= i < j < |events| && events[i].UserMessage? && events[j].UserMessage? ==>
      events[i].id != events[j].id
  }

  /** What is left of the messages without assistant commentary, and without messages that have no id. */
  function Shown(rows: seq<Row>): seq<Row> {
    if rows == [] then []
    else
      var before := Shown(rows[..|rows| - 1]);
      var last := rows[|rows| - 1];
      if IsCommentary(last) || last.id == "" then before else before + [last]
  }

  function WithoutCommentary(rows: seq<Row>): seq<Row> {
    if rows == [] then []
    else
      var before := WithoutCommentary(rows[..|rows| - 1]);
      if IsCommentary(rows[|rows| - 1]) then before else before + [rows[|rows| - 1]]
  }

  // ---------------------------------------------------------------- rows

  ghost predicate DistinctRows(rows: seq<Row>) {
    forall i, j :: 0 <= i < j < |rows| ==> rows[i].id != rows[j].id
  }

  /** The rows with one of them classified. */
  function Rekinded(rows: seq<Row>, id: string, kind: Kind): seq<Row> {
    seq(|rows|, i requires 0 <= i < |rows| => if rows[i].id == id then rows[i].(kind := Some(kind)) else rows[i])
  }

  lemma {:induction false} ShownFrom(rows: seq<Row>, id: string)
    ensures HasId(Shown(rows), id) ==> HasId(rows, id)
    decreases |rows|
  {
    if rows != [] {
      var init := rows[..|rows| - 1];
      ShownFrom(init, id);
      if HasId(init, id) {
        var i :| 0 <= i < |init| && init[i].id == id;
        assert rows[i].id == id;
      }
    }
  }

  /** Classifying a row that is not there changes nothing. */
  lemma RekindedNone(rows: seq<Row>, id: string, kind: Kind)
    requires !HasId(rows, id)
    ensures Rekinded(rows, id, kind) == rows
  {
  }

  lemma {:induction false} WithoutNone(rows: seq<Row>, id: string)
    requires !HasId(rows, id)
    ensures Without(rows, id) == rows && FirstWith(rows, id) == None
    decreases |rows|
  {
    FirstNone(rows, id);
    WithoutSame(rows, id);
  }

  lemma {:induction false} FirstNone(rows: seq<Row>, id: string)
    requires !HasId(rows, id)
    ensures FirstWith(rows, id) == None
    decreases |rows|
  {
    if rows != [] {
      forall i | 0 <= i < |rows[1..]| ensures rows[1..][i].id != id {
        assert rows[1..][i] == rows[i + 1];
      }
      FirstNone(rows[1..], id);
    }
  }

  lemma {:induction false} WithoutSame(rows: seq<Row>, id: string)
    requires !HasId(rows, id)
    ensures Without(rows, id) == rows
    decreases |rows|
  {
    if rows != [] {
      var init := rows[..|rows| - 1];
      forall i | 0 <= i < |init| ensures init[i].id != id {
        assert init[i] == rows[i];
      }
      WithoutSame(init, id);
    }
  }

  lemma {:induction false} FirstAppend(rows: seq<Row>, row: Row)
    requires !HasId(rows, row.id)
    ensures FirstWith(rows + [row], row.id) == Some(row)
    decreases |rows|
  {
    if rows != [] {
      assert (rows + [row])[1..] == rows[1..] + [row];
      forall i | 0 <= i < |rows[1..]| ensures rows[1..][i].id != row.id {
        assert rows[1..][i] == rows[i + 1];
      }
      FirstAppend(rows[1..], row);
    }
  }

  lemma {:induction false} FirstKept(rows: seq<Row>, row: Row, id: string)
    requires row.id != id
    ensures FirstWith(rows + [row], id) == FirstWith(rows, id)
    decreases |rows|
  {
    if rows == [] {
      assert FirstWith([row], id) == FirstWith([row][1..], id);
    } else {
      assert (rows + [row])[1..] == rows[1..] + [row];
      FirstKept(rows[1..], row, id);
    }
  }

  ghost predicate ShowsRekinded(rows: seq<Row>, id: string, kind: Kind) {
    FirstWith(Shown(rows), id).Some? && Unclassified(FirstWith(Shown(rows), id).value) &&
    FirstWith(Shown(rows), id).value.id == id &&
    Shown(Rekinded(rows, id, kind)) ==
      (if kind == Commentary then Without(Shown(rows), id)
       else Replaced(Shown(rows), FirstWith(Shown(rows), id).value.(kind := Some(kind))))
  }

  /** The row classified is the last one. */
  lemma LastRekinded(rows: seq<Row>, id: string, kind: Kind)
    requires DistinctRows(rows) && rows != [] && rows[|rows| - 1].id == id != "" && Unclassified(rows[|rows| - 1])
    ensures ShowsRekinded(rows, id, kind)
  {
    var init := rows[..|rows| - 1];
    var last := rows[|rows| - 1];
    var re := Rekinded(rows, id, kind);
    assert re[..|re| - 1] == Rekinded(init, id, kind);
    forall i | 0 <= i < |init| ensures init[i].id != id {
      assert init[i] == rows[i];
    }
    RekindedNone(init, id, kind);
    ShownFrom(init, id);
    WithoutNone(Shown(init), id);
    FirstAppend(Shown(init), last);
    assert Shown(rows) == Shown(init) + [last];
    assert (Shown(init) + [last])[..|Shown(init)|] == Shown(init);
    if kind != Commentary {
      assert Replaced(Shown(rows), last.(kind := Some(kind))) == Shown(init) + [last.(kind := Some(kind))];
    }
  }

  /** The row classified is an earlier one. */
  lemma EarlierRekinded(rows: seq<Row>, id: string, kind: Kind)
    requires rows != [] && rows[|rows| - 1].id != id && id != "" && ShowsRekinded(rows[..|rows| - 1], id, kind)
    ensures ShowsRekinded(rows, id, kind)
  {
    var init := rows[..|rows| - 1];
    var last := rows[|rows| - 1];
    var re := Rekinded(rows, id, kind);
    assert re[..|re| - 1] == Rekinded(init, id, kind);
    FirstKept(Shown(init), last, id);
    assert (Shown(init) + [last])[..|Shown(init)|] == Shown(init);
    if kind != Commentary && !(IsCommentary(last) || last.id == "") {
      var row := FirstWith(Shown(init), id).value.(kind := Some(kind));
      assert Replaced(Shown(init) + [last], row) == Replaced(Shown(init), row) + [last];
    }
  }

  /** Late classification of a shown row: as commentary it goes, otherwise it is replaced in place. */
  lemma {:induction false} ShownRekinded(rows: seq<Row>, id: string, kind: Kind)
    requires DistinctRows(rows) && id != ""
    requires forall i :: 0 <= i < |rows| && rows[i].id == id ==> Unclassified(rows[i])
    ensures HasId(rows, id) ==> ShowsRekinded(rows, id, kind)
    decreases |rows|
  {
    hide Shown, Rekinded, FirstWith, Replaced, Without, ShowsRekinded;
    if rows != [] && HasId(rows, id) {
      var init := rows[..|rows| - 1];
      if rows[|rows| - 1].id == id {
        LastRekinded(rows, id, kind);
      } else {
        var i :| 0 <= i < |rows| && rows[i].id == id;
        assert init[i].id == id;
        ShownRekinded(init, id, kind);
        EarlierRekinded(rows, id, kind);
      }
    }
  }

  lemma {:induction false} ShownNoId(rows: seq<Row>, kind: Kind)
    requires DistinctRows(rows)
    requires forall i :: 0 <= i < |rows| && rows[i].id == "" ==> Unclassified(rows[i])
    ensures Shown(Rekinded(rows, "", kind)) == Shown(rows)
    decreases |rows|
  {
    if rows != [] {
      var init := rows[..|rows| - 1];
      var re := Rekinded(rows, "", kind);
      assert re[..|re| - 1] == Rekinded(init, "", kind);
      ShownNoId(init, kind);
    }
  }

  lemma {:induction false} NoEmptyShown(rows: seq<Row>)
    ensures !HasId(Shown(rows), "")
    decreases |rows|
  {
    if rows != [] {
      var init := rows[..|rows| - 1];
      NoEmptyShown(init);
      var s := Shown(rows);
      forall i | 0 <= i < |s| ensures s[i].id != "" {
        assert i < |Shown(init)| ==> s[i] == Shown(init)[i];
      }
    }
  }

  // ---------------------------------------------------------------- the batch fold, event by event

  lemma {:induction false} KindsAre(events: seq<Event>, id: string)
    ensures id in KindsOf(events) <==> exists i :: 0 <= i < |events| && events[i].Classified? && events[i].id == id
    decreases |events|
  {
    if events != [] {
      var init := events[..|events| - 1];
      KindsAre(init, id);
      assert forall i :: 0 <= i < |init| ==> init[i] == events[i];
    }
  }

  ghost predicate FromMessage(events: seq<Event>, kinds: map<string, Kind>, row: Row) {
    exists i :: 0 <= i < |events| && events[i].Message? && row == WithKind(events[i].row, kinds)
  }

  /** The rows of a log, by where their messages stand. */
  lemma {:induction false} RowsAre(events: seq<Event>, kinds: map<string, Kind>)
    ensures forall k :: 0 <= k < |RowsWith(events, kinds)| ==> FromMessage(events, kinds, RowsWith(events, kinds)[k])
    ensures forall i :: 0 <= i < |events| && events[i].Message? ==> HasId(RowsWith(events, kinds), events[i].row.id)
    decreases |events|
  {
    if events != [] {
      var init := events[..|events| - 1];
      var last := events[|events| - 1];
      RowsAre(init, kinds);
      var rows := RowsWith(events, kinds);
      forall k | 0 <= k < |rows| ensures FromMessage(events, kinds, rows[k]) {
        if k < |RowsWith(init, kinds)| {
          assert FromMessage(init, kinds, RowsWith(init, kinds)[k]);
          var i :| 0 <= i < |init| && init[i].Message? && RowsWith(init, kinds)[k] == WithKind(init[i].row, kinds);
          assert events[i] == init[i];
        } else {
          assert events[|events| - 1].Message?;
        }
      }
      forall i | 0 <= i < |events| && events[i].Message? ensures HasId(rows, events[i].row.id) {
        if i < |init| {
          assert init[i] == events[i];
          var k :| 0 <= k < |RowsWith(init, kinds)| && RowsWith(init, kinds)[k].id == events[i].row.id;
          assert rows[k].id == events[i].row.id;
        } else {
          assert rows[|rows| - 1].id == last.row.id;
        }
      }
    }
  }

  lemma {:induction false} RowsDistinct(events: seq<Event>, kinds: map<string, Kind>)
    requires forall i, j :: 0 <= i < j < |events| && events[i].Message? && events[j].Message? ==>
               events[i].row.id != events[j].row.id
    ensures DistinctRows(RowsWith(events, kinds))
    decreases |events|
  {
    if events != [] {
      var init := events[..|events| - 1];
      RowsDistinct(init, kinds);
      RowsAre(init, kinds);
      var rows := RowsWith(events, kinds);
      var before := RowsWith(init, kinds);
      forall i, j | 0 <= i < j < |rows| ensures rows[i].id != rows[j].id {
        if j == |before| {
          assert FromMessage(init, kinds, before[i]);
          var k :| 0 <= k < |init| && init[k].Message? && before[i] == WithKind(init[k].row, kinds);
          assert events[k] == init[k];
        } else {
          assert before[i].id != before[j].id;
        }
      }
    }
  }

  /** Classifying one id changes only its rows. */
  lemma {:induction false} RowsRekinded(events: seq<Event>, kinds: map<string, Kind>, id: string, kind: Kind)
    ensures RowsWith(events, kinds[id := kind]) == Rekinded(RowsWith(events, kinds), id, kind)
    decreases |events|
  {
    if events != [] {
      var init := events[..|events| - 1];
      RowsRekinded(init, kinds, id, kind);
      var last := events[|events| - 1];
      if last.Message? {
        var before := RowsWith(init, kinds);
        var row := WithKind(last.row, kinds);
        assert Rekinded(before + [row], id, kind) == Rekinded(before, id, kind) + [WithKind(last.row, kinds[id := kind])];
      }
    }
  }

  lemma PrefixRowsOk(events: seq<Event>, n: nat)
    requires RowsOk(events) && n <= |events|
    ensures RowsOk(events[..n])
  {
    var p := events[..n];
    assert forall i :: 0 <= i < |p| ==> p[i] == events[i];
    forall i | 0 <= i < |p| && p[i].Classified? ensures OpenBefore(p, i, p[i].id) {
      assert OpenBefore(events, i, events[i].id);
      var j :| 0 <= j < i && events[j].Message? && events[j].row.id == p[i].id && Unclassified(events[j].row);
      assert p[j] == events[j];
    }
    forall i | 0 <= i < |p| && p[i].UserMessage? ensures Before(p, i, p[i].id, User) {
      assert Before(events, i, events[i].id, User);
      var j :| 0 <= j < i && events[j].Message? && events[j].row.id == p[i].id && events[j].row.role == User;
      assert p[j] == events[j];
    }
  }

  /** A message that has not been classified yet is shown as it was written. */
  lemma RowOf(events: seq<Event>, id: string)
    requires RowsOk(events) && OpenBefore(events, |events|, id) && id !in KindsOf(events)
    ensures HasId(Messages(events), id)
    ensures forall k :: 0 <= k < |Messages(events)| && Messages(events)[k].id == id ==> Unclassified(Messages(events)[k])
  {
    var kinds := KindsOf(events);
    RowsAre(events, kinds);
    var j :| 0 <= j < |events| && events[j].Message? && events[j].row.id == id && Unclassified(events[j].row);
    forall k | 0 <= k < |Messages(events)| && Messages(events)[k].id == id ensures Unclassified(Messages(events)[k]) {
      assert FromMessage(events, kinds, Messages(events)[k]);
      var i :| 0 <= i < |events| && events[i].Message? && Messages(events)[k] == WithKind(events[i].row, kinds);
      assert i == j;
    }
  }

  // ---------------------------------------------------------------- agreement

  lemma AgreeMessage(events: seq<Event>, row: Row)
    requires RowsOk(events + [Message(row)]) && ProjectAll(events).messages == Shown(Messages(events))
    ensures ProjectAll(events + [Message(row)]).messages == Shown(Messages(events + [Message(row)]))
  {
    var n := events + [Message(row)];
    assert n[..|n| - 1] == events;
    var kinds := KindsOf(events);
    NotYetClassified(events, row);
    var rows := Messages(events);
    assert Messages(n) == rows + [row];
    assert (rows + [row])[..|rows|] == rows;
    NotThere(events, row);
    ShownFrom(rows, row.id);
    WithoutNone(Shown(rows), row.id);
  }

  lemma NotYetClassified(events: seq<Event>, row: Row)
    requires RowsOk(events + [Message(row)])
    ensures row.id !in KindsOf(events)
  {
    var n := events + [Message(row)];
    KindsAre(events, row.id);
    forall i | 0 <= i < |events| && events[i].Classified? ensures events[i].id != row.id {
      assert n[i] == events[i] && OpenBefore(n, i, n[i].id);
      var j :| 0 <= j < i && n[j].Message? && n[j].row.id == n[i].id && Unclassified(n[j].row);
      assert n[|events|] == Message(row);
    }
  }

  lemma NotThere(events: seq<Event>, row: Row)
    requires RowsOk(events + [Message(row)])
    ensures !HasId(Messages(events), row.id)
  {
    var n := events + [Message(row)];
    forall i | 0 <= i < |events| && events[i].Message? ensures events[i].row.id != row.id {
      assert n[i] == events[i] && n[|events|] == Message(row);
    }
    hide RowsOk, RowsWith;
    RowsAre(events, KindsOf(events));
    forall k | 0 <= k < |Messages(events)| ensures Messages(events)[k].id != row.id {
      assert FromMessage(events, KindsOf(events), Messages(events)[k]);
    }
  }

  lemma AgreeClassified(events: seq<Event>, id: string, kind: Kind)
    requires RowsOk(events) && RowsOk(events + [Classified(id, kind)])
    requires ProjectAll(events).messages == Shown(Messages(events))
    ensures ProjectAll(events + [Classified(id, kind)]).messages == Shown(Messages(events + [Classified(id, kind)]))
  {
    var n := events + [Classified(id, kind)];
    assert n[..|n| - 1] == events && n[|events|] == Classified(id, kind);
    var rows := Messages(events);
    OpenStill(events, id, kind);
    RowOf(events, id);
    RowsDistinct(events, KindsOf(events));
    RowsRekinded(events, KindsOf(events), id, kind);
    assert Messages(n) == Rekinded(rows, id, kind);
    if id == "" {
      ShownNoId(rows, kind);
      NoEmptyShown(rows);
      FirstNone(Shown(rows), "");
    } else {
      ShownRekinded(rows, id, kind);
    }
  }

  lemma OpenStill(events: seq<Event>, id: string, kind: Kind)
    requires RowsOk(events + [Classified(id, kind)])
    ensures OpenBefore(events, |events|, id) && id !in KindsOf(events)
  {
    var n := events + [Classified(id, kind)];
    assert n[|events|] == Classified(id, kind) && OpenBefore(n, |events|, id);
    var j :| 0 <= j < |events| && n[j].Message? && n[j].row.id == id && Unclassified(n[j].row);
    assert events[j] == n[j];
    KindsAre(events, id);
    forall i | 0 <= i < |events| && events[i].Classified? ensures events[i].id != id {
      assert n[i] == events[i];
    }
  }

  /** The projection, folded event by event, shows just the messages of the batch fold that are to be shown. */
  lemma {:induction false} ProjectionAgrees(events: seq<Event>)
    requires RowsOk(events)
    ensures ProjectAll(events).messages == Shown(Messages(events))
    decreases |events|
  {
    if events != [] {
      var init := events[..|events| - 1];
      var last := events[|events| - 1];
      assert events == init + [last];
      PrefixRowsOk(events, |init|);
      ProjectionAgrees(init);
      match last
      case Message(row) => AgreeMessage(init, row);
      case Classified(id, kind) => AgreeClassified(init, id, kind);
      case _ =>
        assert KindsOf(events) == KindsOf(init);
        assert Messages(events) == Messages(init);
    }
  }

  lemma {:induction false} ShownLength(rows: seq<Row>)
    ensures |Shown(rows)| <= |WithoutCommentary(rows)|
    ensures (forall i :: 0 <= i < |rows| && rows[i].id == "" ==> IsCommentary(rows[i])) <==>
            Shown(rows) == WithoutCommentary(rows)
    ensures |Shown(rows)| == |WithoutCommentary(rows)| ==> Shown(rows) == WithoutCommentary(rows)
    decreases |rows|
  {
    if rows != [] {
      var init := rows[..|rows| - 1];
      ShownLength(init);
      assert forall i :: 0 <= i < |init| ==> init[i] == rows[i];
    }
  }

  /** The two agree entirely, commentary apart, exactly when every message to be shown has an id. */
  lemma AgreementIff(events: seq<Event>)
    requires RowsOk(events)
    ensures ProjectAll(events).messages == WithoutCommentary(Messages(events)) <==>
            forall i :: 0 <= i < |Messages(events)| && Messages(events)[i].id == "" ==> IsCommentary(Messages(events)[i])
  {
    ProjectionAgrees(events);
    ShownLength(Messages(events));
  }
}
