/**
 * The conversation store: one row per part on the way in; regrouped, downgraded and re-validated on
 * the way out. Stored rows are untrusted.
 */
module ConversationStore {
  import opened Options
  import opened Transcript

  /** The role column: a neutral role, or text that is none. */
  datatype StoredRole = Known(role: Role) | Unrecognised

  /** The payload column: a neutral part, something else, or nothing (a legacy row). */
  datatype Payload = Neutral(part: Part) | Malformed | Absent

  datatype Row = Row(seqNo: int, turnIndex: Option<int>, role: StoredRole, payload: Payload, content: Option<string>)

  /** A turn being reassembled, its parts not yet validated. */
  datatype Candidate = Candidate(role: Role, index: int, parts: seq<Payload>)

  /** The neutral shape asks non-empty ids and names of tool parts. */
  predicate ValidPart(p: Part) {
    IsToolPart(p) ==> p.callId != "" && p.name != ""
  }

  predicate AllValid(turns: seq<Turn>) {
    forall i, j | 0 <= i < |turns| && 0 <= j < |turns[i].parts| :: ValidPart(turns[i].parts[j])
  }

  /** A stored system role, and a role that is none, read back as user. */
  function CoerceRole(role: StoredRole): Role {
    if role == Known(Assistant) then Assistant else if role == Known(Tool) then Tool else User
  }

  function PartFromRow(row: Row): Option<Payload> {
    if !row.payload.Absent? then Some(row.payload)
    else if row.content.Some? then Some(Neutral(TextPart(row.content.value)))
    else None
  }

  function TurnKey(row: Row): int {
    if row.turnIndex.Some? then row.turnIndex.value else row.seqNo
  }

  /** Where the candidate of a turn stands, if it has one. */
  function PositionOf(candidates: seq<Candidate>, index: int): (p: Option<nat>)
    ensures p.Some? ==> p.value < |candidates| && candidates[p.value].index == index
    ensures p.None? ==> forall i | 0 <= i < |candidates| :: candidates[i].index != index
  {
    if candidates == [] then None
    else
      var n := |candidates| - 1;
      var before := PositionOf(candidates[..n], index);
      if before.Some? then before else if candidates[n].index == index then Some(n)
      else assert forall i | 0 <= i < n :: candidates[i] == candidates[..n][i]; None
  }

  function Place(candidates: seq<Candidate>, row: Row): seq<Candidate> {
    var part := PartFromRow(row);
    if part.None? then candidates
    else match PositionOf(candidates, TurnKey(row))
      case Some(p) => candidates[p := candidates[p].(parts := candidates[p].parts + [part.value])]
      case None => candidates + [Candidate(CoerceRole(row.role), TurnKey(row), [part.value])]
  }

  function Assemble(candidates: seq<Candidate>, rows: seq<Row>): seq<Candidate> {
    if rows == [] then candidates else Place(Assemble(candidates, rows[..|rows| - 1]), rows[|rows| - 1])
  }

  function ValidParts(parts: seq<Payload>): seq<Part> {
    if parts == [] then []
    else
      var last := parts[|parts| - 1];
      ValidParts(parts[..|parts| - 1]) + if last.Neutral? && ValidPart(last.part) then [last.part] else []
  }

  /** The read-path validator: bad parts and the turns left empty are dropped. */
  function ValidateConversation(candidates: seq<Candidate>): seq<Turn> {
    if candidates == [] then []
    else
      var last := candidates[|candidates| - 1];
      var parts := ValidParts(last.parts);
      ValidateConversation(candidates[..|candidates| - 1])
        + if last.index < 0 || parts == [] then [] else [Turn(last.role, last.index, parts)]
  }

  function Rehydrated(rows: seq<Row>): seq<Turn> {
    ValidateConversation(Assemble([], rows))
  }

  /** The map from turn index to position says where each candidate stands. */
  ghost predicate Locates(turnPos: map<int, nat>, candidates: seq<Candidate>) {
    forall k :: PositionOf(candidates, k) == if k in turnPos then Some(turnPos[k]) else None
  }

  lemma {:induction false} LocatesGrown(turnPos: map<int, nat>, candidates: seq<Candidate>, c: Candidate)
    requires Locates(turnPos, candidates) && c.index !in turnPos
    ensures Locates(turnPos[c.index := |candidates|], candidates + [c])
  {
    forall k ensures PositionOf(candidates + [c], k) == if k == c.index then Some(|candidates|) else PositionOf(candidates, k) {
      assert (candidates + [c])[..|candidates|] == candidates;
    }
  }

  lemma {:induction false} LocatesExtended(turnPos: map<int, nat>, candidates: seq<Candidate>, p: nat, parts: seq<Payload>)
    requires Locates(turnPos, candidates) && p < |candidates|
    ensures Locates(turnPos, candidates[p := candidates[p].(parts := parts)])
  {
    var grown := candidates[p := candidates[p].(parts := parts)];
    forall k ensures PositionOf(grown, k) == PositionOf(candidates, k) { PositionsDependOnIndices(grown, candidates, k); }
  }

  /** One row of the loop. */
  method PlaceRow(candidates: seq<Candidate>, turnPos: map<int, nat>, row: Row)
    returns (candidates': seq<Candidate>, turnPos': map<int, nat>)
    requires Locates(turnPos, candidates)
    ensures candidates' == Place(candidates, row) && Locates(turnPos', candidates')
  {
    candidates', turnPos' := candidates, turnPos;
    var part := PartFromRow(row);
    if part.Some? {
      var key := TurnKey(row);
      assert PositionOf(candidates, key) == if key in turnPos then Some(turnPos[key]) else None;
      if key in turnPos {
        var p := turnPos[key];
        var parts := candidates[p].parts + [part.value];
        LocatesExtended(turnPos, candidates, p, parts);
        candidates' := candidates[p := candidates[p].(parts := parts)];
      } else {
        var c := Candidate(CoerceRole(row.role), key, [part.value]);
        LocatesGrown(turnPos, candidates, c);
        turnPos' := turnPos[key := |candidates|];
        candidates' := candidates + [c];
      }
    }
  }

  /** The loop over the rows, with its map from turn index to position. */
  method RehydrateConversation(rows: seq<Row>) returns (turns: seq<Turn>)
    ensures turns == Rehydrated(rows)
  {
    var candidates: seq<Candidate> := [];
    var turnPos: map<int, nat> := map[];
    for r := 0 to |rows|
      invariant candidates == Assemble([], rows[..r])
      invariant Locates(turnPos, candidates)
    {
      assert rows[..r + 1][..r] == rows[..r];
      candidates, turnPos := PlaceRow(candidates, turnPos, rows[r]);
    }
    assert rows[..|rows|] == rows;
    turns := Validate(candidates);
  }

  method Validate(candidates: seq<Candidate>) returns (turns: seq<Turn>)
    ensures turns == ValidateConversation(candidates)
  {
    turns := [];
    for c := 0 to |candidates|
      invariant turns == ValidateConversation(candidates[..c])
    {
      assert candidates[..c + 1][..c] == candidates[..c];
      var t := candidates[c];
      if t.index >= 0 {
        var parts: seq<Part> := [];
        for p := 0 to |t.parts|
          invariant parts == ValidParts(t.parts[..p])
        {
          assert t.parts[..p + 1][..p] == t.parts[..p];
          if t.parts[p].Neutral? && ValidPart(t.parts[p].part) { parts := parts + [t.parts[p].part]; }
        }
        assert t.parts[..|t.parts|] == t.parts;
        if parts != [] { turns := turns + [Turn(t.role, t.index, parts)]; }
      }
    }
    assert candidates[..|candidates|] == candidates;
  }

  lemma {:induction false} PositionsDependOnIndices(a: seq<Candidate>, b: seq<Candidate>, k: int)
    requires |a| == |b| && forall i | 0 <= i < |a| :: a[i].index == b[i].index
    ensures PositionOf(a, k) == PositionOf(b, k)
    decreases |a|
  {
    if a != [] {
      PositionsDependOnIndices(a[..|a| - 1], b[..|b| - 1], k);
    }
  }

  // ---- writing -------------------------------------------------------------------------------------

  function TurnRows(turn: Turn, start: nat): seq<Row> {
    seq(|turn.parts|, j requires 0 <= j < |turn.parts| =>
      Row(start + j, Some(turn.index), Known(turn.role), Neutral(turn.parts[j]), None))
  }

  function Stored(turns: seq<Turn>): seq<Row> {
    if turns == [] then []
    else
      var before := Stored(turns[..|turns| - 1]);
      before + TurnRows(turns[|turns| - 1], |before|)
  }

  lemma {:induction false} StoredInOrder(turns: seq<Turn>)
    ensures |Stored(turns)| == |AllParts(turns)|
    ensures forall k | 0 <= k < |Stored(turns)| :: Stored(turns)[k].seqNo == k && Stored(turns)[k].payload == Neutral(AllParts(turns)[k])
    decreases |turns|
  {
    if turns != [] {
      StoredInOrder(turns[..|turns| - 1]);
    }
  }

  /** One row per part, numbered through. */
  method FlattenConversationToRows(turns: seq<Turn>) returns (rows: seq<Row>)
    ensures rows == Stored(turns)
    ensures |rows| == |AllParts(turns)|
    ensures forall k | 0 <= k < |rows| :: rows[k].seqNo == k && rows[k].payload == Neutral(AllParts(turns)[k])
  {
    StoredInOrder(turns);
    rows := [];
    for t := 0 to |turns|
      invariant rows == Stored(turns[..t])
    {
      assert turns[..t + 1][..t] == turns[..t];
      ghost var before := rows;
      for p := 0 to |turns[t].parts|
        invariant rows == before + TurnRows(turns[t], |before|)[..p]
      {
        rows := rows + [Row(|rows|, Some(turns[t].index), Known(turns[t].role), Neutral(turns[t].parts[p]), None)];
      }
    }
    assert turns[..|turns|] == turns;
  }

  /** What reading back changes of a sound transcript: the system role. */
  function Downgraded(turns: seq<Turn>): seq<Turn> {
    seq(|turns|, i requires 0 <= i < |turns| => turns[i].(role := CoerceRole(Known(turns[i].role))))
  }

  // ---- whatever was stored --------------------------------------------------------------------------

  predicate NoSystemCandidate(candidates: seq<Candidate>) {
    forall i | 0 <= i < |candidates| :: candidates[i].role != System
  }

  lemma {:induction false} AssembledRoles(rows: seq<Row>)
    ensures NoSystemCandidate(Assemble([], rows))
    decreases |rows|
  {
    if rows != [] {
      AssembledRoles(rows[..|rows| - 1]);
    }
  }

  lemma {:induction false} ValidPartsAreValid(parts: seq<Payload>)
    ensures forall j | 0 <= j < |ValidParts(parts)| :: ValidPart(ValidParts(parts)[j])
    decreases |parts|
  {
    if parts != [] {
      ValidPartsAreValid(parts[..|parts| - 1]);
    }
  }

  lemma {:induction false} ValidatedIsSafe(candidates: seq<Candidate>)
    requires NoSystemCandidate(candidates)
    ensures var turns := ValidateConversation(candidates);
      AllValid(turns) && forall i | 0 <= i < |turns| :: turns[i].role != System && turns[i].parts != []
    decreases |candidates|
  {
    if candidates != [] {
      ValidatedIsSafe(candidates[..|candidates| - 1]);
      ValidPartsAreValid(candidates[|candidates| - 1].parts);
    }
  }

  /** Whatever rows are stored, what is read back holds no system turn, no empty turn and no malformed part. */
  lemma {:induction false} RehydratedIsSafe(rows: seq<Row>)
    ensures var turns := Rehydrated(rows);
      AllValid(turns) && forall i | 0 <= i < |turns| :: turns[i].role != System && turns[i].parts != []
  {
    AssembledRoles(rows);
    ValidatedIsSafe(Assemble([], rows));
  }

  // ---- round trip -----------------------------------------------------------------------------------

  function AsCandidate(turn: Turn): Candidate {
    Candidate(CoerceRole(Known(turn.role)), turn.index, Payloads(turn.parts))
  }

  function Payloads(parts: seq<Part>): seq<Payload> {
    seq(|parts|, j requires 0 <= j < |parts| => Neutral(parts[j]))
  }

  function AsCandidates(turns: seq<Turn>): seq<Candidate> {
    seq(|turns|, i requires 0 <= i < |turns| => AsCandidate(turns[i]))
  }

  lemma {:induction false} AssembleConcat(candidates: seq<Candidate>, a: seq<Row>, b: seq<Row>)
    ensures Assemble(candidates, a + b) == Assemble(Assemble(candidates, a), b)
    decreases |b|
  {
    if b == [] {
      assert a + b == a;
    } else {
      assert (a + b)[..|a + b| - 1] == a + b[..|b| - 1];
      AssembleConcat(candidates, a, b[..|b| - 1]);
    }
  }

  /** A stored row joins the candidate of its turn when that one stands last, and starts it otherwise. */
  lemma {:induction false} PlaceLast(candidates: seq<Candidate>, c: Candidate, row: Row, part: Part)
    requires PositionOf(candidates, c.index).None?
    requires row.turnIndex == Some(c.index) && row.payload == Neutral(part)
    ensures Place(candidates + [c], row) == candidates + [c.(parts := c.parts + [Neutral(part)])]
    ensures Place(candidates, row) == candidates + [Candidate(CoerceRole(row.role), c.index, [Neutral(part)])]
  {
    assert (candidates + [c])[..|candidates|] == candidates;
  }

  lemma {:induction false} AssembleTurn(candidates: seq<Candidate>, turn: Turn, start: nat, k: nat)
    requires PositionOf(candidates, turn.index).None?
    requires 0 < k <= |turn.parts|
    ensures Assemble(candidates, TurnRows(turn, start)[..k])
      == candidates + [Candidate(CoerceRole(Known(turn.role)), turn.index, Payloads(turn.parts[..k]))]
    decreases k
  {
    var rows := TurnRows(turn, start);
    var role := CoerceRole(Known(turn.role));
    assert rows[..k][..k - 1] == rows[..k - 1];
    var c := Candidate(role, turn.index, Payloads(turn.parts[..k - 1]));
    PlaceLast(candidates, c, rows[k - 1], turn.parts[k - 1]);
    assert Payloads(turn.parts[..k]) == Payloads(turn.parts[..k - 1]) + [Neutral(turn.parts[k - 1])];
    if k == 1 {
      assert Assemble(candidates, rows[..0]) == candidates;
      assert Payloads(turn.parts[..1]) == [Neutral(turn.parts[0])];
    } else {
      AssembleTurn(candidates, turn, start, k - 1);
      assert Assemble(candidates, rows[..k]) == Place(Assemble(candidates, rows[..k - 1]), rows[k - 1]);
    }
  }

  lemma {:induction false} NewIndexHasNoCandidate(turns: seq<Turn>, index: nat)
    requires forall i | 0 <= i < |turns| :: turns[i].index != index
    ensures PositionOf(AsCandidates(turns), index).None?
  {
  }

  lemma {:induction false} StoredSnoc(turns: seq<Turn>, last: Turn)
    ensures Stored(turns + [last]) == Stored(turns) + TurnRows(last, |Stored(turns)|)
    ensures AsCandidates(turns + [last]) == AsCandidates(turns) + [AsCandidate(last)]
  {
    assert (turns + [last])[..|turns|] == turns;
  }

  lemma {:induction false} AssembleWholeTurn(candidates: seq<Candidate>, turn: Turn, start: nat)
    requires PositionOf(candidates, turn.index).None? && turn.parts != []
    ensures Assemble(candidates, TurnRows(turn, start)) == candidates + [AsCandidate(turn)]
  {
    AssembleTurn(candidates, turn, start, |turn.parts|);
    assert TurnRows(turn, start)[..|turn.parts|] == TurnRows(turn, start) && turn.parts[..|turn.parts|] == turn.parts;
  }

  lemma {:induction false} AssembleStep(turns: seq<Turn>, last: Turn)
    requires Assemble([], Stored(turns)) == AsCandidates(turns)
    requires PositionOf(AsCandidates(turns), last.index).None? && last.parts != []
    ensures Assemble([], Stored(turns + [last])) == AsCandidates(turns + [last])
  {
    var rows := TurnRows(last, |Stored(turns)|);
    StoredSnoc(turns, last);
    AssembleConcat([], Stored(turns), rows);
    AssembleWholeTurn(AsCandidates(turns), last, |Stored(turns)|);
  }

  lemma {:induction false} AssembleStored(turns: seq<Turn>)
    requires WellIndexed(turns) && forall i | 0 <= i < |turns| :: turns[i].parts != []
    ensures Assemble([], Stored(turns)) == AsCandidates(turns)
    decreases |turns|
  {
    if turns == [] {
      assert Stored(turns) == [] && AsCandidates(turns) == [];
    } else {
      var before, last := turns[..|turns| - 1], turns[|turns| - 1];
      AssembleStored(before);
      NewIndexHasNoCandidate(before, last.index);
      assert before + [last] == turns;
      AssembleStep(before, last);
    }
  }

  lemma {:induction false} ValidPayloads(parts: seq<Part>)
    requires forall j | 0 <= j < |parts| :: ValidPart(parts[j])
    ensures ValidParts(Payloads(parts)) == parts
    decreases |parts|
  {
    if parts != [] {
      var n := |parts| - 1;
      ValidPayloads(parts[..n]);
      assert Payloads(parts)[..n] == Payloads(parts[..n]);
    }
  }

  lemma {:induction false} ValidateSnoc(turns: seq<Turn>, last: Turn)
    ensures ValidateConversation(AsCandidates(turns + [last])) ==
      ValidateConversation(AsCandidates(turns))
        + (var parts := ValidParts(Payloads(last.parts)); if parts == [] then [] else [Turn(CoerceRole(Known(last.role)), last.index, parts)])
  {
    StoredSnoc(turns, last);
    assert (AsCandidates(turns) + [AsCandidate(last)])[..|turns|] == AsCandidates(turns);
  }

  lemma {:induction false} ValidateSound(turns: seq<Turn>)
    requires AllValid(turns) && forall i | 0 <= i < |turns| :: turns[i].parts != []
    ensures ValidateConversation(AsCandidates(turns)) == Downgraded(turns)
    decreases |turns|
  {
    if turns != [] {
      var before, last := turns[..|turns| - 1], turns[|turns| - 1];
      ValidateSound(before);
      ValidPayloads(last.parts);
      ValidateSnoc(before, last);
      assert before + [last] == turns;
      assert Downgraded(turns) == Downgraded(before) + [last.(role := CoerceRole(Known(last.role)))];
    }
  }

  /**
   * Storing a transcript and reading it back gives the transcript with `system` downgraded to `user`,
   * exactly when every tool part has an id and a name.
   */
  lemma {:induction false} StoreRoundTrip(turns: seq<Turn>)
    requires WellIndexed(turns) && forall i | 0 <= i < |turns| :: turns[i].parts != []
    ensures Rehydrated(Stored(turns)) == Downgraded(turns) <==> AllValid(turns)
  {
    AssembleStored(turns);
    if AllValid(turns) {
      ValidateSound(turns);
    } else {
      RehydratedIsSafe(Stored(turns));
      var i, j :| 0 <= i < |turns| && 0 <= j < |turns[i].parts| && !ValidPart(turns[i].parts[j]);
      assert Downgraded(turns)[i].parts[j] == turns[i].parts[j];
    }
  }
}
