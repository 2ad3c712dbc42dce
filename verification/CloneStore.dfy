/** The clone reservation transaction and the handler around it, over the job table of `CloneJobs`. */
module CloneStore {
  import opened Common
  import opened CloneJobs

  datatype Reservation = Conflict | Existing(job: JobId) | Created(job: JobId, vmid: int) | Lost

  /** What other handlers, recoveries and registrations do meanwhile. */
  predicate Foreign(steps: seq<Step>, h: HandlerId) {
    forall i :: 0 <= i < |steps| ==>
      match steps[i]
      case Reserve(k, _, _) => k != h
      case Submit(k) => k != h
      case Reply(k, _) => k != h
      case Record(k) => k != h
      case Lose(k) => k != h
      case Quit(k) => k != h
      case _ => true
  }

  class Store {
    var s: State

    method Perform(step: Step)
      requires Inv(s)
      modifies this
      ensures Inv(s) && s == Next(old(s), step) && old(s).submissions <= s.submissions
    {
      hide Next, Inv;
      SubmissionsStay(s, step);
      StepKeepsInv(s, step);
      s := Next(s, step);
    }

    method Interfere(h: HandlerId, steps: seq<Step>)
      requires Inv(s) && Foreign(steps, h)
      modifies this
      ensures Inv(s) && (h in s.handlers <==> h in old(s).handlers)
      ensures (h in s.handlers ==> s.handlers[h] == old(s).handlers[h])
      ensures old(s).submissions <= s.submissions
    {
      hide Next, Inv;
      for n := 0 to |steps|
        invariant Inv(s) && (h in s.handlers <==> h in old(s).handlers)
        invariant (h in s.handlers ==> s.handlers[h] == old(s).handlers[h])
        invariant old(s).submissions <= s.submissions
      {
        ForeignFacts(s, steps[n], h);
        Perform(steps[n]);
      }
    }

    /** The bounded search: the least free id at or after the hint. */
    method FindTarget(w: Wish) returns (vmid: Option<int>)
      ensures if vmid.Some? then LeastFree(s, w, vmid.value) else NoneFree(s, w)
    {
      hide Free;
      for c := w.hint to w.hint + WINDOW
        invariant forall v :: w.hint <= v < c ==> !Free(s, w, v)
      {
        if Free(s, w, c) {
          return Some(c);
        }
      }
      return None;
    }

    method ChooseTarget(w: Wish) returns (vmid: Option<int>)
      ensures if vmid.Some? then Chosen(s, w, vmid.value) else NoneChosen(s, w)
    {
      if w.fixed {
        return if w.hint in s.managed || Owned(s, w.hint) then None else Some(w.hint);
      }
      vmid := FindTarget(w);
    }

    /** `ReserveDesktopCloneJob` and `ReserveAvailableDesktopCloneJob`. */
    method Reserve(h: HandlerId, w: Wish, commit: Commit) returns (r: Reservation)
      requires Inv(s) && h !in s.handlers
      modifies this
      ensures Inv(s)
      ensures r.Created? ==>
                && r.job == w.id && Chosen(old(s), w, r.vmid) && s == Next(old(s), CloneJobs.Reserve(h, w, r.vmid))
                && !KeyUsed(old(s), w.key)
      ensures r.Created? ==>
                && w.id !in old(s).jobs && h in s.handlers && s.handlers[h] == Reserved(w.id)
                && s.submissions == old(s).submissions
      ensures r.Existing? ==>
                && s == old(s) && r.job in s.jobs && s.jobs[r.job].key == w.key
                && s.jobs[r.job].fingerprint == w.fingerprint
      ensures r.Conflict? <==>
                || !Proper(w)
                || (exists i ::
                      i in old(s).jobs && old(s).jobs[i].key == w.key && old(s).jobs[i].fingerprint != w.fingerprint)
                || (!KeyUsed(old(s), w.key) && (NoneChosen(old(s), w) || w.id in old(s).jobs))
      ensures r.Conflict? ==> s == old(s)
      ensures r.Lost? ==> h !in s.handlers && s.submissions == old(s).submissions
    {
      hide Next, Chosen, NoneChosen;
      if !Proper(w) {
        return Conflict;
      }
      if KeyUsed(s, w.key) {
        var i :| i in s.jobs && s.jobs[i].key == w.key;
        if s.jobs[i].fingerprint != w.fingerprint {
          return Conflict;
        }
        return Existing(i);
      }
      var vmid := ChooseTarget(w);
      if vmid.None? {
        return Conflict;
      }
      SomeChosen(s, w, vmid.value);
      if w.id in s.jobs {
        return Conflict;
      }
      ReserveFacts(s, h, w, vmid.value);
      if commit == Refused {
        return Lost;
      }
      if commit == Unknown {
        // The row is there, but no handler will ever submit it.
        InsertKeepsInv(s, w, vmid.value);
        s := Insert(s, w, vmid.value);
        return Lost;
      }
      Perform(CloneJobs.Reserve(h, w, vmid.value));
      return Created(w.id, vmid.value);
    }

    /**
     `createDesktopInstance` from the reservation on: the hypervisor is asked once, and only by the
     request that created the job; only an unanswered call resets it, and every exit leaves the handler.
     */
    method CreateInstance(h: HandlerId, w: Wish, commit: Commit, noise: seq<Step>, reply: Option<Upid>,
        later: seq<Step>, last: seq<Step>, recorded: Commit)
      returns (r: Reservation, ok: bool)
      requires Inv(s) && h !in s.handlers && Foreign(noise, h) && Foreign(later, h) && Foreign(last, h)
      modifies this
      ensures Inv(s) && h !in s.handlers
      ensures ok ==> r.Created? && w.id in s.jobs && s.jobs[w.id].state == Running && s.jobs[w.id].handle == reply
      ensures !r.Created? ==> s.submissions == old(s).submissions
      ensures r.Created? ==> w.id in s.submissions && w.id !in old(s).jobs && !KeyUsed(old(s), w.key)
      ensures ok ==> reply.Some?
    {
      hide Next, Inv, Chosen, NoneChosen, KeyUsed;
      r := Reserve(h, w, commit);
      ok := false;
      if r.Created? {
        Interfere(h, noise);
        SubmitFacts(s, h);
        ghost var at := |s.submissions|;
        Perform(Submit(h));
        Interfere(h, later);
        assert s.submissions[at] == w.id;
        LeaveFacts(s, h, "");
        if reply.None? {
          if recorded != Refused {
            Perform(Lose(h));
          } else {
            Perform(Quit(h));
          }
          assert s.submissions[at] == w.id;
          return r, false;
        }
        LeaveFacts(s, h, reply.value);
        Perform(Reply(h, reply.value));
        Interfere(h, last);
        assert s.submissions[at] == w.id;
        LeaveFacts(s, h, reply.value);
        if recorded != Refused {
          ok := recorded == Committed && w.id in s.jobs && CanAttach(s.jobs[w.id], reply.value);
          Perform(Record(h));
        } else {
          Perform(Quit(h));
        }
        assert s.submissions[at] == w.id;
      }
    }
  }

  /** The steps by which a request leaves its handler, and the one before. */
  lemma LeaveFacts(s: State, h: HandlerId, u: Upid)
    ensures h !in Next(s, Quit(h)).handlers
    ensures h in s.handlers && s.handlers[h].Submitted? ==>
              && h !in Next(s, Lose(h)).handlers
              && h in Next(s, Reply(h, u)).handlers
              && Next(s, Reply(h, u)).handlers[h] == Answered(s.handlers[h].job, u)
    ensures h in s.handlers && s.handlers[h].Answered? ==>
              var i, t := s.handlers[h].job, Next(s, Record(h));
              && h !in t.handlers
              && (i in s.jobs && CanAttach(s.jobs[i], s.handlers[h].handle) ==>
                    i in t.jobs && t.jobs[i].state == Running && t.jobs[i].handle == Some(s.handlers[h].handle))
  {
  }

  lemma ForeignFacts(s: State, step: Step, h: HandlerId)
    requires Foreign([step], h)
    ensures var t := Next(s, step);
            && (h in t.handlers <==> h in s.handlers) && (h in t.handlers ==> t.handlers[h] == s.handlers[h])
  {
    assert [step][0] == step;
  }

  lemma SomeChosen(s: State, w: Wish, vmid: int)
    requires Chosen(s, w, vmid)
    ensures !NoneChosen(s, w)
  {
  }

  lemma ReserveFacts(s: State, h: HandlerId, w: Wish, vmid: int)
    requires Proper(w) && h !in s.handlers && w.id !in s.jobs && !KeyUsed(s, w.key) && Chosen(s, w, vmid)
    ensures Next(s, CloneJobs.Reserve(h, w, vmid)) == Insert(s, w, vmid).(handlers := s.handlers[h := Reserved(w.id)])
  {
  }

  lemma InsertKeepsInv(s: State, w: Wish, vmid: int)
    requires Inv(s) && w.id !in s.jobs && !KeyUsed(s, w.key) && Chosen(s, w, vmid)
    ensures Inv(Insert(s, w, vmid))
  {
  }

  lemma SubmitFacts(s: State, h: HandlerId)
    requires h in s.handlers && s.handlers[h].Reserved?
    ensures var t := Next(s, Submit(h));
            && t.submissions == s.submissions + [s.handlers[h].job] && h in t.handlers
            && t.handlers[h] == Submitted(s.handlers[h].job)
  {
  }

  lemma SubmissionsStay(s: State, step: Step)
    ensures s.submissions <= Next(s, step).submissions
  {
  }
}
