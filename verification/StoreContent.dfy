/**
 * What is read back of whatever rows are stored: each turn the readable parts of its rows, in order.
 */
module StoreContent {
  import opened Options
  import opened Sequences
  import opened Json
  import opened Transcript
  import opened ConversationStore
  import opened Replay

  /** A row of a turn: of the turn it names, or, an old row without one, of its own. */
  predicate OfTurn(row: Row, turn: int) {
    turn == match row.turnIndex case Some(t) => t case None => row.seqNo
  }

  predicate InRange(row: Row) { match row.turnIndex case Some(t) => t >= 0 case None => row.seqNo >= 0 }

  /** A row with a payload, or with an old row's text. */
  predicate HasPart(row: Row) { !row.payload.Absent? || row.content.Some? }

  /** A neutral part, its id and name given if it is a tool's; or an old row's text. */
  predicate IsReadable(row: Row) {
    match row.payload
    case Neutral(part) => IsToolPart(part) ==> part.callId != "" && part.name != ""
    case Malformed => false
    case Absent => row.content.Some?
  }

  predicate IsPartOf(row: Row, part: Part) {
    match row.payload
    case Neutral(p) => part == p
    case Malformed => false
    case Absent => row.content.Some? && part == TextPart(row.content.value)
  }

  predicate IsRoleOf(row: Row, role: Role) {
    role == match row.role case Known(Assistant) => Assistant case Known(Tool) => Tool case _ => User
  }

  /** The first row of a turn that has a part. */
  ghost predicate Opens(rows: seq<Row>, r: nat, turn: int) {
    && r < |rows| && HasPart(rows[r]) && OfTurn(rows[r], turn)
    && forall q | 0 <= q < r :: !(HasPart(rows[q]) && OfTurn(rows[q], turn))
  }

  function Readable(turn: int): Row -> bool { (row: Row) => OfTurn(row, turn) && IsReadable(row) }

  /** Some parts are the readable ones of a turn's rows, in order. */
  ghost predicate ArePartsOf(rows: seq<Row>, turn: int, parts: seq<Part>) {
    exists ks: seq<nat> :: IsRecord(rows, ks, parts, Readable(turn), IsPartOf)
  }

  // ---- the turns being reassembled ----------------------------------------------------------------------

  /** Candidate `i` is of the turn that row `rs[i]` opens. */
  ghost predicate CandidateAt(candidates: seq<Candidate>, rows: seq<Row>, rs: seq<nat>, i: nat) {
    && i < |candidates| && i < |rs| && Opens(rows, rs[i], candidates[i].index) && IsRoleOf(rows[rs[i]], candidates[i].role)
    && ArePartsOf(rows, candidates[i].index, ValidParts(candidates[i].parts))
  }

  ghost predicate Assembled(candidates: seq<Candidate>, rows: seq<Row>, rs: seq<nat>) {
    && |rs| == |candidates| && (forall i, j | 0 <= i < j < |rs| :: rs[i] < rs[j])
    && (forall i: nat | i < |rs| :: CandidateAt(candidates, rows, rs, i))
  }

  lemma {:induction false} OpensStays(rows: seq<Row>, row: Row, r: nat, turn: int)
    requires Opens(rows, r, turn)
    ensures Opens(rows + [row], r, turn) && (rows + [row])[r] == rows[r]
  {
    assert forall q | 0 <= q < |rows| :: (rows + [row])[q] == rows[q];
  }

  /** A row adds to the parts of its own turn, and only if it is readable. */
  lemma {:induction false} PartsStay(rows: seq<Row>, row: Row, turn: int, parts: seq<Part>)
    requires ArePartsOf(rows, turn, parts) && !Readable(turn)(row)
    ensures ArePartsOf(rows + [row], turn, parts)
  {
    var ks: seq<nat> :| IsRecord(rows, ks, parts, Readable(turn), IsPartOf);
    RecordSkips(rows, row, ks, parts, Readable(turn), IsPartOf);
  }

  lemma {:induction false} PartsGrow(rows: seq<Row>, row: Row, turn: int, parts: seq<Part>, part: Part)
    requires ArePartsOf(rows, turn, parts) && Readable(turn)(row) && IsPartOf(row, part)
    ensures ArePartsOf(rows + [row], turn, parts + [part])
  {
    var ks: seq<nat> :| IsRecord(rows, ks, parts, Readable(turn), IsPartOf);
    RecordGrows(rows, row, ks, parts, part, Readable(turn), IsPartOf);
    assert IsRecord(rows + [row], ks + [|rows|], parts + [part], Readable(turn), IsPartOf);
  }

  lemma {:induction false} ValidPartsSnoc(parts: seq<Payload>, p: Payload)
    ensures ValidParts(parts + [p]) == ValidParts(parts) + if p.Neutral? && ValidPart(p.part) then [p.part] else []
  {
    assert (parts + [p])[..|parts|] == parts;
  }

  /** The parts of a turn with one more of its rows. */
  lemma {:induction false} PartsWith(rows: seq<Row>, row: Row, turn: int, parts: seq<Payload>)
    requires ArePartsOf(rows, turn, ValidParts(parts)) && OfTurn(row, turn) && PartFromRow(row).Some?
    ensures ArePartsOf(rows + [row], turn, ValidParts(parts + [PartFromRow(row).value]))
  {
    var p := PartFromRow(row).value;
    ValidPartsSnoc(parts, p);
    if p.Neutral? && ValidPart(p.part) {
      PartsGrow(rows, row, turn, ValidParts(parts), p.part);
    } else {
      PartsStay(rows, row, turn, ValidParts(parts));
      assert ValidParts(parts) + [] == ValidParts(parts);
    }
  }

  /** No row of a turn was read before its first. */
  lemma {:induction false} NoPartsYet(rows: seq<Row>, turn: int)
    requires forall r | 0 <= r < |rows| :: !(HasPart(rows[r]) && OfTurn(rows[r], turn))
    ensures ArePartsOf(rows, turn, [])
  {
    forall r | 0 <= r < |rows| ensures !Readable(turn)(rows[r]) { assert IsReadable(rows[r]) ==> HasPart(rows[r]); }
    assert IsRecord<Row, Part>(rows, [], [], Readable(turn), IsPartOf);
  }

  /** Every turn that some row openers has its candidate. */
  ghost predicate AllOpened(candidates: seq<Candidate>, rows: seq<Row>) {
    forall r | 0 <= r < |rows| && HasPart(rows[r]) :: exists i :: 0 <= i < |candidates| && OfTurn(rows[r], candidates[i].index)
  }

  lemma {:induction false} CandidateStays(candidates: seq<Candidate>, rows: seq<Row>, rs: seq<nat>, row: Row, i: nat)
    requires CandidateAt(candidates, rows, rs, i) && !(HasPart(row) && OfTurn(row, candidates[i].index))
    ensures CandidateAt(candidates, rows + [row], rs, i)
  {
    OpensStays(rows, row, rs[i], candidates[i].index);
    PartsStay(rows, row, candidates[i].index, ValidParts(candidates[i].parts));
  }

  lemma {:induction false} CandidateJoined(candidates: seq<Candidate>, rows: seq<Row>, rs: seq<nat>, row: Row, p: nat)
    requires CandidateAt(candidates, rows, rs, p) && PartFromRow(row).Some? && OfTurn(row, candidates[p].index)
    ensures CandidateAt(candidates[p := candidates[p].(parts := candidates[p].parts + [PartFromRow(row).value])], rows + [row], rs, p)
  {
    OpensStays(rows, row, rs[p], candidates[p].index);
    PartsWith(rows, row, candidates[p].index, candidates[p].parts);
  }

  lemma {:induction false} CandidateOpened(candidates: seq<Candidate>, rows: seq<Row>, rs: seq<nat>, row: Row)
    requires |rs| == |candidates| && PartFromRow(row).Some?
    requires forall r | 0 <= r < |rows| :: !(HasPart(rows[r]) && OfTurn(rows[r], TurnKey(row)))
    ensures CandidateAt(candidates + [Candidate(CoerceRole(row.role), TurnKey(row), [PartFromRow(row).value])], rows + [row], rs + [|rows|], |rs|)
  {
    var all := rows + [row];
    assert all[|rows|] == row;
    assert forall r | 0 <= r < |rows| :: all[r] == rows[r];
    NoPartsYet(rows, TurnKey(row));
    PartsWith(rows, row, TurnKey(row), []);
    assert [] + [PartFromRow(row).value] == [PartFromRow(row).value];
    assert Opens(all, |rows|, TurnKey(row));
  }

  lemma {:induction false} OtherCandidate(candidates: seq<Candidate>, candidates': seq<Candidate>, rows: seq<Row>, rs: seq<nat>, rs': seq<nat>, i: nat)
    requires CandidateAt(candidates, rows, rs, i) && i < |candidates'| && i < |rs'| && candidates'[i] == candidates[i] && rs'[i] == rs[i]
    ensures CandidateAt(candidates', rows, rs', i)
  {
  }

  /** A row joins the candidate of its turn. */
  lemma {:induction false} JoinKeeps(candidates: seq<Candidate>, rows: seq<Row>, rs: seq<nat>, row: Row, p: nat)
    requires Assembled(candidates, rows, rs) && PartFromRow(row).Some? && p < |candidates| && OfTurn(row, candidates[p].index)
    requires forall i, j | 0 <= i < j < |candidates| :: candidates[i].index != candidates[j].index
    ensures Assembled(candidates[p := candidates[p].(parts := candidates[p].parts + [PartFromRow(row).value])], rows + [row], rs)
  {
    var joined := candidates[p := candidates[p].(parts := candidates[p].parts + [PartFromRow(row).value])];
    forall i: nat | i < |rs| ensures CandidateAt(joined, rows + [row], rs, i) {
      if i == p {
        CandidateJoined(candidates, rows, rs, row, p);
      } else {
        CandidateStays(candidates, rows, rs, row, i);
        OtherCandidate(candidates, joined, rows + [row], rs, rs, i);
      }
    }
  }

  /** A row opens its turn. */
  lemma {:induction false} OpenKeeps(candidates: seq<Candidate>, rows: seq<Row>, rs: seq<nat>, row: Row)
    requires Assembled(candidates, rows, rs) && AllOpened(candidates, rows) && PartFromRow(row).Some?
    requires forall i | 0 <= i < |candidates| :: candidates[i].index != TurnKey(row)
    ensures Assembled(candidates + [Candidate(CoerceRole(row.role), TurnKey(row), [PartFromRow(row).value])], rows + [row], rs + [|rows|])
  {
    var openers := candidates + [Candidate(CoerceRole(row.role), TurnKey(row), [PartFromRow(row).value])];
    var rs' := rs + [|rows|];
    forall i: nat | i < |rs'| ensures CandidateAt(openers, rows + [row], rs', i) {
      if i == |rs| {
        CandidateOpened(candidates, rows, rs, row);
      } else {
        CandidateStays(candidates, rows, rs, row, i);
        OtherCandidate(candidates, openers, rows + [row], rs, rs', i);
      }
    }
    forall i | 0 <= i < |rs| ensures rs[i] < |rows| { assert CandidateAt(candidates, rows, rs, i); }
  }

  lemma {:induction false} SkipKeeps(candidates: seq<Candidate>, rows: seq<Row>, rs: seq<nat>, row: Row)
    requires Assembled(candidates, rows, rs) && !HasPart(row)
    ensures Assembled(candidates, rows + [row], rs)
  {
    forall i: nat | i < |rs| ensures CandidateAt(candidates, rows + [row], rs, i) { CandidateStays(candidates, rows, rs, row, i); }
  }

  /** The candidates' turns are all different, and each turn with a part has one. */
  ghost predicate Keyed(candidates: seq<Candidate>, rows: seq<Row>) {
    && (forall i, j | 0 <= i < j < |candidates| :: candidates[i].index != candidates[j].index)
    && AllOpened(candidates, rows)
  }

  lemma {:induction false} PlaceKeyed(candidates: seq<Candidate>, rows: seq<Row>, row: Row)
    requires Keyed(candidates, rows)
    ensures Keyed(Place(candidates, row), rows + [row])
  {
    var placed, all := Place(candidates, row), rows + [row];
    assert forall i | 0 <= i < |candidates| :: placed[i].index == candidates[i].index;
    forall r | 0 <= r < |all| && HasPart(all[r]) ensures exists i :: 0 <= i < |placed| && OfTurn(all[r], placed[i].index) {
      if r < |rows| {
        assert all[r] == rows[r];
        var i :| 0 <= i < |candidates| && OfTurn(rows[r], candidates[i].index);
        assert OfTurn(all[r], placed[i].index);
      } else {
        var p := PositionOf(candidates, TurnKey(row));
        assert OfTurn(all[r], placed[if p.Some? then p.value else |candidates|].index);
      }
    }
  }

  lemma {:induction false} PlaceKeeps(candidates: seq<Candidate>, rows: seq<Row>, rs: seq<nat>, row: Row) returns (rs': seq<nat>)
    requires Assembled(candidates, rows, rs) && Keyed(candidates, rows)
    ensures Assembled(Place(candidates, row), rows + [row], rs')
  {
    rs' := rs;
    if PartFromRow(row).None? {
      SkipKeeps(candidates, rows, rs, row);
    } else {
      match PositionOf(candidates, TurnKey(row))
      case Some(p) => JoinKeeps(candidates, rows, rs, row, p);
      case None =>
        OpenKeeps(candidates, rows, rs, row);
        rs' := rs + [|rows|];
    }
  }

  lemma {:induction false} AssembleKeeps(rows: seq<Row>) returns (rs: seq<nat>)
    ensures Assembled(Assemble([], rows), rows, rs) && Keyed(Assemble([], rows), rows)
    decreases |rows|
  {
    rs := [];
    if rows != [] {
      var before, row := rows[..|rows| - 1], rows[|rows| - 1];
      assert before + [row] == rows;
      rs := AssembleKeeps(before);
      PlaceKeyed(Assemble([], before), before, row);
      rs := PlaceKeeps(Assemble([], before), before, rs, row);
    }
  }

  // ---- the turns read back ---------------------------------------------------------------------------------

  predicate IsKept(c: Candidate) { c.index >= 0 && ValidParts(c.parts) != [] }
  predicate IsTurnOf(c: Candidate, turn: Turn) { turn.role == c.role && turn.index == c.index && turn.parts == ValidParts(c.parts) }

  lemma {:induction false} ValidatedAre(candidates: seq<Candidate>) returns (js: seq<nat>)
    ensures IsRecord(candidates, js, ValidateConversation(candidates), IsKept, IsTurnOf)
    decreases |candidates|
  {
    js := [];
    if candidates != [] {
      var before, c := candidates[..|candidates| - 1], candidates[|candidates| - 1];
      assert before + [c] == candidates;
      js := ValidatedAre(before);
      if IsKept(c) {
        RecordGrows(before, c, js, ValidateConversation(before), Turn(c.role, c.index, ValidParts(c.parts)), IsKept, IsTurnOf);
        js := js + [|before|];
      } else {
        RecordSkips(before, c, js, ValidateConversation(before), IsKept, IsTurnOf);
      }
    }
  }

  /** A turn as it is read back: openers by row `r`, in that row's role, with the readable parts of all its rows. */
  ghost predicate IsReadBack(rows: seq<Row>, r: nat, turn: Turn) {
    && Opens(rows, r, turn.index) && IsRoleOf(rows[r], turn.role)
    && ArePartsOf(rows, turn.index, turn.parts) && turn.parts != []
  }

  /** A readable row's turn is kept. */
  lemma {:induction false} TurnIsKept(rows: seq<Row>, candidates: seq<Candidate>, openers: seq<nat>, r: nat) returns (c: nat)
    requires Assembled(candidates, rows, openers) && AllOpened(candidates, rows)
    requires r < |rows| && IsReadable(rows[r]) && InRange(rows[r])
    ensures c < |candidates| && OfTurn(rows[r], candidates[c].index) && IsKept(candidates[c])
  {
    assert HasPart(rows[r]);
    c :| 0 <= c < |candidates| && OfTurn(rows[r], candidates[c].index);
    assert CandidateAt(candidates, rows, openers, c);
    var turn, parts := candidates[c].index, ValidParts(candidates[c].parts);
    var ks: seq<nat> :| IsRecord(rows, ks, parts, Readable(turn), IsPartOf);
    assert Readable(turn)(rows[r]);
    assert r in ks;
  }

  predicate Ascending(ks: seq<nat>) { forall i, j | 0 <= i < j < |ks| :: ks[i] < ks[j] }

  /** The places of the kept candidates' opening rows. */
  lemma {:induction false} Composed(js: seq<nat>, openers: seq<nat>) returns (rs: seq<nat>)
    requires Ascending(js) && Ascending(openers) && forall i | 0 <= i < |js| :: js[i] < |openers|
    ensures |rs| == |js| && Ascending(rs) && forall i | 0 <= i < |js| :: js[i] < |openers| && rs[i] == openers[js[i]]
  {
    rs := seq(|js|, i requires 0 <= i < |js| => openers[js[i]]);
  }

  lemma {:induction false} KeptIsReadBack(rows: seq<Row>, candidates: seq<Candidate>, openers: seq<nat>, j: nat, turn: Turn)
    requires j < |candidates| && CandidateAt(candidates, rows, openers, j) && IsKept(candidates[j]) && IsTurnOf(candidates[j], turn)
    ensures IsReadBack(rows, openers[j], turn)
  {
  }

  /** Some turn that is read back is that of a row. */
  ghost predicate HasTurn(turns: seq<Turn>, row: Row) { exists i :: 0 <= i < |turns| && OfTurn(row, turns[i].index) }

  lemma {:induction false} ReadableIsReadBack(rows: seq<Row>, candidates: seq<Candidate>, openers: seq<nat>, js: seq<nat>, turns: seq<Turn>, r: nat)
    requires Assembled(candidates, rows, openers) && AllOpened(candidates, rows)
    requires IsRecord(candidates, js, turns, IsKept, IsTurnOf)
    requires r < |rows| && IsReadable(rows[r]) && InRange(rows[r])
    ensures HasTurn(turns, rows[r])
  {
    var c := TurnIsKept(rows, candidates, openers, r);
    assert c in js;
    var i :| 0 <= i < |js| && js[i] == c;
    assert IsTurnOf(candidates[js[i]], turns[i]);
  }

  /**
   * Whatever rows are stored: a turn is read back for each non-negative turn number under which some row is readable,
   * in the order in which the turns were opened, with the role of the row that opened it, never `system`, and the
   * readable parts of its rows in order; an old row without a turn is one of its own, its text the part.
   */
  lemma {:induction false} RehydratedAreTheRows(rows: seq<Row>) returns (rs: seq<nat>)
    ensures |rs| == |Rehydrated(rows)| && Ascending(rs)
    ensures forall i | 0 <= i < |rs| :: IsReadBack(rows, rs[i], Rehydrated(rows)[i])
    ensures forall r | 0 <= r < |rows| && IsReadable(rows[r]) && InRange(rows[r]) :: HasTurn(Rehydrated(rows), rows[r])
  {
    var candidates, turns := Assemble([], rows), Rehydrated(rows);
    var openers := AssembleKeeps(rows);
    var js := ValidatedAre(candidates);
    rs := Composed(js, openers);
    forall i | 0 <= i < |rs| ensures IsReadBack(rows, rs[i], turns[i]) {
      KeptIsReadBack(rows, candidates, openers, js[i], turns[i]);
    }
    forall r | 0 <= r < |rows| && IsReadable(rows[r]) && InRange(rows[r]) ensures HasTurn(turns, rows[r]) {
      ReadableIsReadBack(rows, candidates, openers, js, turns, r);
    }
  }

  // ---- reattaching ------------------------------------------------------------------------------------------

  /** A head that stands where the system turn stood: one text of the user, the instructions where the adapter looks. */
  predicate StandsForSystem(test: HeadTest, spec: AgentSpec, head: Turn) {
    || (head.role == System && test != OpenAi)
    || (head.role == User && |head.parts| == 1 && head.parts[0].TextPart? && (test.AnthropicOrPi? || head.parts[0] == TextPart(spec.instructions)))
  }

  /** Whatever was read back: in front the trusted instructions, then all its turns but such a head, renumbered. */
  lemma {:induction false} ReattachKeepsTheRest(test: HeadTest, spec: AgentSpec, turns: seq<Turn>)
    ensures var back := ReattachTrustedSystemTurn(test, spec, turns);
      var d := if turns != [] && StandsForSystem(test, spec, turns[0]) then 1 else 0;
      && |back| == |turns| - d + 1 && back[0] == Turn(System, 0, [TextPart(spec.instructions)])
      && forall i | 1 <= i < |back| :: back[i] == Turn(turns[i - 1 + d].role, i, turns[i - 1 + d].parts)
  {
    var back := ReattachTrustedSystemTurn(test, spec, turns);
    var d := if turns != [] && StandsForSystem(test, spec, turns[0]) then 1 else 0;
    forall i | 1 <= i < |back| ensures back[i] == Turn(turns[i - 1 + d].role, i, turns[i - 1 + d].parts) {
      assert turns[d..][i - 1] == turns[i - 1 + d];
    }
  }
}
