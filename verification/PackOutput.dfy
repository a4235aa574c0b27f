/**
 * Pack's write: the archive under a temporary name, checked, then moved into place.
 */
module PackOutput {
  import opened Options

  datatype Node = Directory | Archive(bytes: string)

  datatype Result = Ok | Refused | Interrupted | Threw

  /**
   * What the steps meet: what a failed write leaves under the temporary name, a file that another process puts at
   * the output, and the steps that fail, the last removal of the temporary file among them.
   */
  datatype World = World(
    bytes: string, writes: bool, partial: Option<string>, asChecked: bool, aborted: bool,
    appears: Option<Node>, moves: bool, unlinks: bool)

  class FileSystem {
    var nodes: map<string, Node>

    /** Write the archive to `output`; with `force` over whatever file is there. `temporary` is a fresh name beside it. */
    method WriteOutput(output: string, temporary: string, force: bool, w: World) returns (result: Result)
      requires temporary != output && temporary !in nodes
      modifies this
      // A temporary file is left exactly when there is one at the end and it cannot be removed; only it and the output are touched.
      ensures temporary in nodes <==> !w.unlinks && LeavesTemporary(old(nodes), output, force, w)
      ensures temporary in nodes ==> nodes[temporary] == Archive(if w.writes then w.bytes else w.partial.value)
      // The output is the archive exactly when it was checked and moved; otherwise it is what others made of it.
      ensures nodes - {temporary} ==
        if Placed(old(nodes), output, force, w) then old(nodes)[output := Archive(w.bytes)] else Meanwhile(old(nodes), output, force, w)
      ensures result.Ok? <==> Placed(old(nodes), output, force, w)
      ensures result.Interrupted? <==> Written(old(nodes), output, force, w) && w.aborted
      ensures result.Threw? <==> Checked(old(nodes), output, force, w) && MoveThrows(Meanwhile(old(nodes), output, force, w), output, force, w)
      // In so many words: what is occupied, not written, not as checked or interrupted leaves the output alone; success
      // is the archive at the output, without force where nothing stood; a failure leaves it what others made of it.
      ensures output in old(nodes) && (old(nodes)[output].Directory? || !force) ==> result.Refused? && nodes == old(nodes)
      ensures !w.writes || !w.asChecked || w.aborted ==> !result.Ok? && nodes - {temporary} == old(nodes)
      ensures result.Ok? ==> output in nodes && nodes[output] == Archive(w.bytes) && (force || (output !in old(nodes) && w.appears.None?))
      ensures !result.Ok? ==> nodes - {temporary} == old(nodes) || (w.appears.Some? && nodes - {temporary} == old(nodes)[output := w.appears.value])
      ensures (output !in old(nodes) || (force && old(nodes)[output].Archive?)) && NothingAgainst(w) ==> result.Ok?
      ensures w.unlinks ==> temporary !in nodes
    {
      if output in nodes && nodes[output].Directory? { return Refused; }
      if output in nodes && !force { return Refused; }
      result := WriteAndPlace(output, temporary, force, w);
      assert result.Ok? ==> output in nodes - {temporary} && (nodes - {temporary})[output] == Archive(w.bytes);
      // Whatever came of it, the temporary file goes; that it cannot be removed is reported nowhere.
      if w.unlinks { nodes := nodes - {temporary}; }
    }

    /** Write under the temporary name, check, and move into place. */
    method WriteAndPlace(output: string, temporary: string, force: bool, w: World) returns (result: Result)
      requires temporary != output && temporary !in nodes && !Occupied(nodes, output, force)
      modifies this
      ensures temporary in nodes <==> LeavesTemporary(old(nodes), output, force, w)
      ensures temporary in nodes ==> nodes[temporary] == Archive(if w.writes then w.bytes else w.partial.value)
      ensures nodes - {temporary} ==
        if Placed(old(nodes), output, force, w) then old(nodes)[output := Archive(w.bytes)] else Meanwhile(old(nodes), output, force, w)
      ensures result.Ok? <==> Placed(old(nodes), output, force, w)
      ensures result.Interrupted? <==> Written(old(nodes), output, force, w) && w.aborted
      ensures result.Threw? <==> Checked(old(nodes), output, force, w) && MoveThrows(Meanwhile(old(nodes), output, force, w), output, force, w)
    {
      if !w.writes {
        if w.partial.Some? { nodes := nodes[temporary := Archive(w.partial.value)]; }
        return Refused;
      }
      nodes := nodes[temporary := Archive(w.bytes)];
      if !w.asChecked { return Refused; }
      if w.aborted { return Interrupted; }
      if w.appears.Some? { nodes := nodes[output := w.appears.value]; }
      result := Place(output, temporary, force, w);
    }

    /** Link, or with `force` rename. The directory sync behind it reports nothing: every failure of it is swallowed. */
    method Place(output: string, temporary: string, force: bool, w: World) returns (result: Result)
      requires temporary != output && temporary in nodes && nodes[temporary] == Archive(w.bytes)
      modifies this
      ensures nodes - {temporary} ==
        if Moves(old(nodes), output, force, w) then (old(nodes) - {temporary})[output := Archive(w.bytes)] else old(nodes) - {temporary}
      ensures temporary in nodes <==> !(force && Moves(old(nodes), output, force, w))
      ensures temporary in nodes ==> nodes[temporary] == Archive(w.bytes)
      ensures result.Ok? <==> Moves(old(nodes), output, force, w)
      ensures result.Threw? <==> MoveThrows(old(nodes), output, force, w)
      ensures result.Ok? || result.Threw? || result.Refused?
    {
      if force {
        if !w.moves || (output in nodes && nodes[output].Directory?) { return Threw; }
        nodes := (nodes - {temporary})[output := Archive(w.bytes)];
      } else {
        if output in nodes { return Refused; }
        if !w.moves { return Threw; }
        nodes := nodes[output := Archive(w.bytes)];
      }
      result := Ok;
    }
  }

  /** Nothing fails, and nobody else writes to the output. */
  predicate NothingAgainst(w: World) { w.writes && w.asChecked && !w.aborted && w.moves && w.appears.None? }

  /** The move into place succeeds: nothing stands there, or a file that may be replaced. */
  predicate Moves(nodes: map<string, Node>, output: string, force: bool, w: World) {
    w.moves && if force then !(output in nodes && nodes[output].Directory?) else output !in nodes
  }

  /** The move fails with an error of its own, not because an archive may not be replaced. */
  predicate MoveThrows(nodes: map<string, Node>, output: string, force: bool, w: World) {
    if force then !w.moves || (output in nodes && nodes[output].Directory?) else !w.moves && output !in nodes
  }

  /** The archive was written under its temporary name and carries what was resolved. */
  predicate Written(nodes: map<string, Node>, output: string, force: bool, w: World) {
    !Occupied(nodes, output, force) && w.writes && w.asChecked
  }

  /** A directory stands at the output, or a file that may not be replaced. */
  predicate Occupied(nodes: map<string, Node>, output: string, force: bool) {
    output in nodes && (nodes[output].Directory? || !force)
  }

  /** Something stands under the temporary name at the end: a rename takes it away, a link does not. */
  predicate LeavesTemporary(nodes: map<string, Node>, output: string, force: bool, w: World) {
    !Occupied(nodes, output, force) && if w.writes then !(force && Placed(nodes, output, force, w)) else w.partial.Some?
  }

  /** The write comes to the move. */
  predicate Checked(nodes: map<string, Node>, output: string, force: bool, w: World) {
    Written(nodes, output, force, w) && !w.aborted
  }

  /** The file system with what another process put at the output by then. */
  function Meanwhile(nodes: map<string, Node>, output: string, force: bool, w: World): map<string, Node> {
    if Checked(nodes, output, force, w) && w.appears.Some? then nodes[output := w.appears.value] else nodes
  }

  predicate Placed(nodes: map<string, Node>, output: string, force: bool, w: World) {
    Checked(nodes, output, force, w) && Moves(Meanwhile(nodes, output, force, w), output, force, w)
  }

  /** Without `force` a file that is at the output, before or by the time of the move, is never replaced. */
  lemma {:induction false} NeverOverwrites(nodes: map<string, Node>, output: string, w: World)
    ensures Placed(nodes, output, false, w) ==> output !in nodes && w.appears.None?
  {
    if w.appears.Some? && Checked(nodes, output, false, w) {
      assert output in Meanwhile(nodes, output, false, w);
    }
  }
}
