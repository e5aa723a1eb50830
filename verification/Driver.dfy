/** The driver: generations of executors, and the start of the disconnect chain. */
module DriverHdi {
  import opened IlluminationManager

  /** One entry of the HDI's answer, and whether an executor could be allocated for it. */
  datatype Proxy = Proxy(isPresent: bool, allocOk: bool)

  datatype HdiReply = AdapterMissing | InterfaceMissing | Failure | Listed(proxies: seq<Proxy>)

  /** New executors, with fresh identities, for the usable proxies. */
  function Made(proxies: seq<Proxy>, first: Executor): seq<Executor> {
    if proxies == [] then []
    else
      var before := Made(proxies[..|proxies| - 1], first);
      var last := proxies[|proxies| - 1];
      if last.isPresent && last.allocOk then before + [first + |before|] else before
  }

  function Usable(proxies: seq<Proxy>): nat {
    if proxies == [] then 0
    else
      Usable(proxies[..|proxies| - 1])
      + if proxies[|proxies| - 1].isPresent && proxies[|proxies| - 1].allocOk then 1 else 0
  }

  /** A new generation is a run of fresh identities, one for each usable proxy. */
  lemma {:induction false} MadeIsFresh(proxies: seq<Proxy>, first: Executor)
    ensures Made(proxies, first) == seq(Usable(proxies), i requires 0 <= i => first + i)
  {
    if proxies != [] {
      MadeIsFresh(proxies[..|proxies| - 1], first);
    }
  }

  type Reaction<!S> = (S, Executor) -> S

  function NotifyAll<S>(executors: seq<Executor>, react: Reaction<S>, s: S): S {
    if executors == [] then s else NotifyAll(executors[1..], react, react(s, executors[0]))
  }

  class FingerprintAuthDriverHdi {
    var fingerprintAuthExecutorList: seq<Executor>

    constructor ()
      ensures fingerprintAuthExecutorList == []
    {
      fingerprintAuthExecutorList := [];
    }

    /** Replaces the current generation, or leaves it when the HDI gives no answer. */
    method GetExecutorList(reply: HdiReply, first: Executor, executorList: seq<Executor>)
      returns (extended: seq<Executor>)
      modifies this
      ensures if reply.Listed?
              then fingerprintAuthExecutorList == Made(reply.proxies, first)
                && extended == executorList + Made(reply.proxies, first)
              else unchanged(this) && extended == executorList
    {
      extended := executorList;
      if reply.AdapterMissing? {
        return;
      }
      if reply.InterfaceMissing? {
        return;
      }
      if reply.Failure? {
        return;
      }
      fingerprintAuthExecutorList := [];
      var proxies := reply.proxies;
      for i := 0 to |proxies|
        invariant fingerprintAuthExecutorList == Made(proxies[..i], first)
        invariant extended == executorList + Made(proxies[..i], first)
      {
        assert proxies[..i + 1][..i] == proxies[..i];
        if !proxies[i].isPresent {
          continue;
        }
        if !proxies[i].allocOk {
          continue;
        }
        var executor := first + |fingerprintAuthExecutorList|;
        extended := extended + [executor];
        fingerprintAuthExecutorList := fingerprintAuthExecutorList + [executor];
      }
      assert proxies[..|proxies|] == proxies;
    }

    method OnHdiDisconnect<S>(react: Reaction<S>, s0: S) returns (s: S)
      modifies this
      ensures s == NotifyAll(old(fingerprintAuthExecutorList), react, s0)
      ensures fingerprintAuthExecutorList == []
    {
      s := s0;
      var executors := fingerprintAuthExecutorList;
      for i := 0 to |executors|
        invariant fingerprintAuthExecutorList == executors
        invariant NotifyAll(executors, react, s0) == NotifyAll(executors[i..], react, s)
      {
        assert executors[i..][1..] == executors[i + 1..];
        s := react(s, executors[i]);
      }
      fingerprintAuthExecutorList := [];
    }
  }
}
