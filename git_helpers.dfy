/** `git_repository_ptr`: a repository handle opened on demand. The handle
    is created by a factory the first time it is needed, kept until `reset`,
    and created again on the next access. */
module GitHelpers {
  import opened Outcome

  /** An open repository (`git_repository*`), identified abstractly. */
  type Handle = nat

  class RepositoryPtr {
    /** `m_ptr`: the handle held, if any. */
    var ptr: Option<Handle>
    /** How many times the factory has been called so far. */
    var calls: nat
    /** `m_factory`: what its n-th call yields; `None` is a null pointer
        (the repository could not be opened). */
    const factory: nat -> Option<Handle>

    constructor(factory: nat -> Option<Handle>)
      ensures this.factory == factory
      ensures ptr == None && calls == 0
    {
      this.factory := factory;
      ptr := None;
      calls := 0;
    }

    /** `get()`: the held handle; when none is held, the factory is called
        once and its result stored, and a null result is an error. */
    method Get() returns (r: Result<Handle>)
      modifies this
      ensures old(ptr).Some? ==> ptr == old(ptr) && calls == old(calls) && r == Ok(ptr.value)
      ensures old(ptr).None? ==> calls == old(calls) + 1 && ptr == factory(old(calls))
      ensures old(ptr).None? ==> r == if ptr.Some? then Ok(ptr.value) else Err("unable create object")
      ensures r.Ok? <==> ptr.Some?
    {
      if ptr.None? {
        ptr := factory(calls);
        calls := calls + 1;
        if ptr.None? {
          return Err("unable create object");
        }
      }
      return Ok(ptr.value);
    }

    /** `operator bool`: true once a handle is held; like `get()` it creates
        the handle when needed (and so fails when the factory yields null).
        `operator*` and `operator->` are `get()` as well. */
    method ToBool() returns (r: Result<bool>)
      modifies this
      ensures old(ptr).Some? ==> ptr == old(ptr) && calls == old(calls) && r == Ok(true)
      ensures old(ptr).None? ==> calls == old(calls) + 1 && ptr == factory(old(calls))
      ensures r == if ptr.Some? then Ok(true) else Err("unable create object")
    {
      var h := Get();
      if h.Ok? {
        return Ok(true);
      }
      return Err(h.msg);
    }

    /** `reset()`: drop the handle. */
    method Reset()
      modifies this
      ensures ptr == None && calls == old(calls)
    {
      ptr := None;
    }

    /** `is_set()`: whether a handle is held; never creates one. */
    predicate IsSet()
      reads this
    {
      ptr.Some?
    }
  }

  /** A handle is created once and then shared: two accesses in a row call
      the factory at most once and give the same handle; after `reset` the
      next access calls the factory again. */
  method GetResetGet(p: RepositoryPtr) returns (first: Result<Handle>, second: Result<Handle>, third: Result<Handle>)
    modifies p
    requires !p.IsSet()
    ensures p.factory(old(p.calls)).Some? ==> first.Ok? && second == first
    ensures first.Ok? ==> third == if p.factory(old(p.calls) + 1).Some? then Ok(p.factory(old(p.calls) + 1).value) else Err("unable create object")
    ensures first.Ok? ==> p.calls == old(p.calls) + 2
  {
    first := p.Get();
    second := p.Get();
    assert first.Ok? ==> second == first;
    p.Reset();
    assert !p.IsSet();
    third := p.Get();
  }
}
