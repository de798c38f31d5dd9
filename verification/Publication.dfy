// Publishing a prepared commit to the configured base (src/cmd/mq.rs,
// publish_prepared_candidate).
module Publication {
  import opened Prelude
  import opened RunRegistry

  datatype Vcs = Git | Jujutsu

  // What the base name denotes: one commit, or nothing that resolves to one.
  datatype Target = At(commit: CommitId) | Unresolved

  datatype Move = Refused | Moved | NothingToMove

  // The expected-old update of the base that both version control systems offer: git
  // update-ref with its old object, and jj bookmark move from the name only where it still
  // denotes the expected commit. Where that is the prepared commit itself, jj has nothing to
  // move, and says the same as when the name denotes something else.
  function TryMove(vcs: Vcs, base: Target, expected: CommitId, prepared: CommitId): Move {
    match vcs
    case Git => if base == At(expected) then Moved else Refused
    case Jujutsu =>
      if prepared == expected then NothingToMove
      else if base == At(expected) then Moved
      else Refused
  }

  datatype Outcome = Verified(landed: CommitId) | AppliedUnverified(requested: CommitId)

  datatype PublishError = CommandFailed | LostExpectedTarget | MovedDuringNoOp

  class Repository {
    const vcs: Vcs
    var base: Target

    constructor (vcs: Vcs, base: Target)
      ensures this.vcs == vcs && this.base == base
    {
      this.vcs, this.base := vcs, base;
    }

    // git update-ref <base> <to> <from>; reports whether it succeeded.
    method UpdateRef(to: CommitId, from: CommitId) returns (ok: bool)
      modifies `base
      ensures ok <==> old(base) == At(from)
      ensures base == if ok then At(to) else old(base)
    {
      ok := TryMove(Git, base, from, to) == Moved;
      if ok {
        base := At(to);
      }
    }

    // jj bookmark move --from <base & from> --to <to>; reports whether it moved anything.
    method BookmarkMove(from: CommitId, to: CommitId) returns (updated: bool)
      modifies `base
      ensures updated <==> old(base) == At(from) && from != to
      ensures base == if updated then At(to) else old(base)
    {
      updated := TryMove(Jujutsu, base, from, to) == Moved;
      if updated {
        base := At(to);
      }
    }

    // Another writer.
    method Interfere(to: Option<Target>)
      modifies `base
      ensures base == if to.Some? then to.value else old(base)
    {
      if to.Some? {
        base := to.value;
      }
    }

    // The command that publishes; publishes says whether it runs at all. A Jujutsu command that
    // has moved nothing is accepted where there was nothing to move.
    method Publish(expected: CommitId, prepared: CommitId, publishes: bool)
        returns (published: Result<Move, PublishError>)
      modifies `base
      ensures publishes && TryMove(vcs, old(base), expected, prepared) != Refused ==>
                published == Ok(TryMove(vcs, old(base), expected, prepared))
      ensures !publishes || TryMove(vcs, old(base), expected, prepared) == Refused ==> published.Err?
      ensures base == if published == Ok(Moved) then At(prepared) else old(base)
    {
      if !publishes {
        return Err(CommandFailed);
      }
      match vcs {
        case Git =>
          var ok := UpdateRef(prepared, expected);
          return if ok then Ok(Moved) else Err(CommandFailed);
        case Jujutsu =>
          var updated := BookmarkMove(expected, prepared);
          if !updated && prepared != expected {
            return Err(LostExpectedTarget);
          }
          return Ok(if updated then Moved else NothingToMove);
      }
    }

    // The look at the base after a Jujutsu publication; identifies says whether the command runs.
    method Verify(prepared: CommitId, move: Move, identifies: bool) returns (outcome: Result<Outcome, PublishError>)
      ensures outcome == Ok(Verified(prepared)) <==> identifies && base == At(prepared)
      ensures outcome.Ok? && outcome.value.Verified? ==> outcome.value.landed == prepared
      ensures outcome.Ok? && outcome.value.AppliedUnverified? ==> move == Moved && outcome.value.requested == prepared
      ensures outcome.Err? ==> move != Moved
    {
      if !identifies {
        if move != Moved {
          return Err(CommandFailed);
        }
        return Ok(AppliedUnverified(prepared));
      }
      if base != At(prepared) {
        if move != Moved {
          return Err(MovedDuringNoOp);
        }
        return Ok(AppliedUnverified(prepared));
      }
      return Ok(Verified(base.commit));
    }

    // publishes and identifies say whether the two commands run at all; interference is what
    // another writer does to the base between them.
    method PublishPreparedCandidate(
        expected: CommitId, prepared: CommitId, publishes: bool, identifies: bool, interference: Option<Target>)
        returns (outcome: Result<Outcome, PublishError>, ghost move: Move)
      modifies `base
      ensures move == if publishes then TryMove(vcs, old(base), expected, prepared) else Refused
      // Verified means the base was seen at exactly the prepared commit, in Jujutsu after
      // any interference.
      ensures outcome.Ok? && outcome.value.Verified? ==>
                outcome.value.landed == prepared && base == At(prepared)
      // It fails exactly when nothing was moved, except for a verified no-op.
      ensures move == Refused ==> outcome.Err? && base == old(base)
      ensures move == Moved ==> old(base) == At(expected) && outcome.Ok?
      ensures move == Moved && vcs == Git ==> outcome == Ok(Verified(prepared))
      ensures move != Refused && vcs == Jujutsu ==>
                && base == (if interference.Some? then interference.value
                            else if move == Moved then At(prepared) else old(base))
                && ((outcome.Ok? && outcome.value.Verified?) <==> identifies && base == At(prepared))
      ensures outcome.Ok? && outcome.value.AppliedUnverified? ==>
                move == Moved && vcs == Jujutsu && outcome.value.requested == prepared
    {
      move := if publishes then TryMove(vcs, base, expected, prepared) else Refused;
      var published := Publish(expected, prepared, publishes);
      if published.Err? {
        return Err(published.error), move;
      }
      if vcs == Git {
        return Ok(Verified(prepared)), move;
      }
      Interfere(interference);
      outcome := Verify(prepared, published.value, identifies);
    }
  }
}
