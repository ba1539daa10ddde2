/** `EntityBacking` updated in place: one method per section under its mutex, proved against
    the steps of EntityLeases. */
module EntityBackings {
  import opened Common
  import opened EntityLeases

  class ContextAdmission {
    var open: bool

    constructor ()
      ensures open
    {
      open := true;
    }
  }

  class EntityBacking {
    const admission: ContextAdmission
    const refs: array<nat>
    var phase: Phase
    var registered: bool
    var destroyStarted: bool
    var resource: bool
    ghost var m: State

    static function Index(kind: Kind): (i: nat)
      ensures i < 3
    {
      match kind
      case Operation => 0
      case Dispatch => 1
      case Work => 2
    }

    ghost predicate Valid()
      reads this, admission, refs
    {
      && refs.Length == 3 && HasRefs(m) && (forall k: Kind :: m.refs[k] == refs[Index(k)])
      && m.admission == admission.open && m.phase == phase && m.registered == registered
      && m.destroyStarted == destroyStarted && (resource <==> !destroyStarted)
      && Inv(m)
    }

    constructor (admission: ContextAdmission)
      requires admission.open
      ensures Valid() && m == Initial() && fresh(refs) && this.admission == admission
    {
      this.admission := admission;
      refs := new nat[3](i => 0);
      phase, registered, destroyStarted, resource := Open, false, false, true;
      m := Initial();
      new;
      InitialInv();
    }

    /** `acquire` for any of the three kinds; `lease` names the lease object it returns. */
    method Acquire(kind: Kind, ghost lease: Lease) returns (r: Result<bool>)
      requires Valid() && lease !in m.leases
      modifies this`m, refs
      ensures Valid() && m == Apply(old(m), Event.Acquire(lease, kind))
      ensures r == match AcquireError(old(m)) case None => Success(true) case Some(e) => Failure(e)
      ensures r.Success? ==> lease in m.leases && resource
    {
      StepKeepsInvariant(m, Event.Acquire(lease, kind));
      hide Inv;
      m := Apply(m, Event.Acquire(lease, kind));
      if !admission.open {
        return Failure(ContextShutdown);
      }
      if phase != Open {
        return Failure(ParentDestroyed);
      }
      refs[Index(kind)] := refs[Index(kind)] + 1;
      r := Success(resource);
    }

    /** `derive_work`, called through a live Work lease: the refusal branch is dead. */
    method DeriveWork(ghost from: Lease, ghost lease: Lease)
      requires Valid() && from in m.leases && m.leases[from] == Work && lease !in m.leases
      modifies this`m, refs
      ensures Valid() && m == Leased(old(m), lease, Work) && resource
    {
      Derivable(m, from);
      StepKeepsInvariant(m, Derive(from, lease));
      hide Inv;
      m := Apply(m, Derive(from, lease));
      if refs[Index(Work)] == 0 || destroyStarted {
        assert false;
      }
      refs[Index(Work)] := refs[Index(Work)] + 1;
    }

    static lemma Derivable(s: State, from: Lease)
      requires Inv(s) && from in s.leases && s.leases[from] == Work
      ensures MayDerive(s)
    {
      LeaseIsCounted(s, from);
    }

    /** `release` up to the call of `try_finalize`; the underflow branch is dead. */
    method Release(kind: Kind, ghost lease: Lease, ghost thread: Thread)
      requires Valid() && lease in m.leases && m.leases[lease] == kind && thread !in m.threads
      modifies this`m, refs
      ensures Valid() && m == Released(old(m), lease, thread)
      ensures lease !in m.leases && thread in m.threads && m.threads[thread] == MustFinalize
    {
      LeaseIsCounted(m, lease);
      StepKeepsInvariant(m, Event.Release(lease, thread));
      hide Inv;
      m := Apply(m, Event.Release(lease, thread));
      if refs[Index(kind)] == 0 {
        assert false;
      }
      refs[Index(kind)] := refs[Index(kind)] - 1;
    }

    /** `set_registered` up to the call of `try_finalize`. */
    method SetRegistered(value: bool, ghost thread: Thread) returns (error: Option<ErrorCode>)
      requires Valid() && thread !in m.threads
      modifies this`m, this`registered
      ensures Valid() && m == Apply(old(m), Event.SetRegistered(value, thread))
      ensures error == RegisterError(old(m), value)
    {
      StepKeepsInvariant(m, Event.SetRegistered(value, thread));
      hide Inv;
      m := Apply(m, Event.SetRegistered(value, thread));
      if value && phase != Open {
        return Some(ParentDestroyed);
      }
      if value && registered {
        return Some(AlreadyRegistered);
      }
      registered := value;
      error := None;
    }

    /** `close` up to the call of `try_finalize`. */
    method Close(ghost thread: Thread)
      requires Valid() && thread !in m.threads
      modifies this`m, this`phase
      ensures Valid() && m == Apply(old(m), Event.Close(thread)) && phase != Open
    {
      StepKeepsInvariant(m, Event.Close(thread));
      hide Inv;
      m := Apply(m, Event.Close(thread));
      if phase != Open {
        return;
      }
      phase := Closing;
    }

    /** The first section of `try_finalize`: the resource is taken by at most one thread. */
    method StartDestroy(ghost thread: Thread) returns (taken: bool)
      requires Valid() && thread in m.threads && m.threads[thread] == MustFinalize
      modifies this`m, this`destroyStarted, this`resource
      ensures Valid() && m == Apply(old(m), Finalize(thread))
      ensures taken <==> MayDestroy(old(m))
      ensures taken ==> old(resource) && !resource && old(m).leases == map[]
    {
      Unleased(m);
      StepKeepsInvariant(m, Finalize(thread));
      hide Inv;
      m := Apply(m, Finalize(thread));
      if phase != Closing || destroyStarted || registered ||
         refs[Index(Operation)] != 0 || refs[Index(Dispatch)] != 0 || refs[Index(Work)] != 0 {
        return false;
      }
      destroyStarted := true;
      taken := resource;
      resource := false;
    }

    static lemma Unleased(s: State)
      requires Inv(s)
      ensures NoRefs(s) ==> s.leases == map[]
    {
      if NoRefs(s) {
        NoRefsMeansNoLeases(s);
      }
    }

    /** The destructor has returned and the last section of `try_finalize` runs. */
    method FinishDestroy(ghost thread: Thread)
      requires Valid() && thread in m.threads && m.threads[thread] == Destroyed
      modifies this`m, this`phase
      ensures Valid() && m == Apply(old(m), MarkClosed(thread)) && phase == Closed && m.destructions == 1
    {
      StepKeepsInvariant(m, MarkClosed(thread));
      m := Apply(m, MarkClosed(thread));
      phase := Closed;
    }
  }
}
