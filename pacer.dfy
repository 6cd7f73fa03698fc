/** The pacer of elastic CPU-bound loops: idle, or holding one elastic CPU
    grant. */
module Pacing {

  import opened Wrappers
  import opened AdmissionTypes
  import opened AdmissionQueues

  class Pacer {
    const unit: Duration
    const wi: WorkInfo
    const wq: ElasticCPUWorkQueue?
    var cur: Option<ElasticCPUWorkHandle>

    /** The grant the pacer holds, as a set of at most one. */
    ghost function Held(): (r: set<ElasticCPUWorkHandle>)
      reads this
    {
      if cur.Some? then {cur.value} else {}
    }

    /** A held grant is outstanding in the pacer's queue. */
    ghost predicate Valid()
      reads this, wq
    {
      && (wq != null ==> wq.Valid())
      && (cur.Some? ==> wq != null && cur.value in wq.outstanding)
    }

    constructor (unit: Duration, wi: WorkInfo, wq: ElasticCPUWorkQueue?)
      requires wq != null ==> wq.Valid()
      ensures this.unit == unit && this.wi == wi && this.wq == wq && cur.None?
      ensures Valid()
    {
      this.unit, this.wi, this.wq, cur := unit, wi, wq, None;
    }
  }

  /** The pacer's queue, as a frame. */
  ghost function QueueFrame(p: Pacer?): (r: set<ElasticCPUWorkQueue>)
  {
    if p != null && p.wq != null then {p.wq} else {}
  }

  /** Called every iteration of the loop. A grant that has used up its CPU
      time is given back; an idle pacer then asks for a new grant of `unit`,
      and the queue's refusal is returned. A nil pacer does nothing. */
  method Pace(p: Pacer?) returns (err: Option<Error>)
    requires p != null ==> p.Valid() && p.wq != null
    modifies p, QueueFrame(p)`nextHandle, QueueFrame(p)`outstanding, QueueFrame(p)`requests
    ensures p == null ==> err.None?
    ensures p != null ==> p.Valid()
    ensures p != null ==>
      var replace := old(p.cur).None? || old(p.wq.OverLimit(p.cur));
      && p.wq.requests == old(p.wq.requests) + (if replace then [ElasticRequest(p.unit, p.wi)] else [])
      && p.wq.outstanding == old(p.wq.outstanding) - old(p.Held()) + p.Held()
      && (p.Held() - old(p.Held())) !! old(p.wq.outstanding)
      && (!replace ==> p.cur == old(p.cur) && err.None?)
      && (replace ==> err == old(p.wq.refusal) && (p.cur.Some? <==> err.None? && old(p.wq.enabled)))
      && (replace && p.cur.Some? ==> p.cur.value !in old(p.wq.outstanding))
    // A grant over its limit is given back, and never kept as the new one.
    ensures p != null && old(p.wq.OverLimit(p.cur)) ==>
      old(p.cur).value !in p.wq.outstanding && p.cur != old(p.cur)
  {
    if p == null {
      return None;
    }
    if p.wq.OverLimit(p.cur) {
      p.wq.AdmittedWorkDone(p.cur);
      p.cur := None;
    }
    if p.cur.None? {
      var handle, e := p.wq.Admit(p.unit, p.wi);
      if e.Some? {
        return e;
      }
      p.cur := handle;
    }
    return None;
  }

  /** Gives back the grant held, if any, and leaves the pacer idle. Safe on
      a nil pacer and on an idle one. */
  method Close(p: Pacer?)
    requires p != null ==> p.Valid()
    modifies p, QueueFrame(p)`outstanding
    ensures p != null ==> p.cur.None? && p.Valid()
    ensures p != null && p.wq != null ==>
      p.wq.outstanding == old(p.wq.outstanding) - old(p.Held()) && p.wq.requests == old(p.wq.requests)
  {
    if p == null || p.cur.None? {
      return;
    }
    p.wq.AdmittedWorkDone(p.cur);
    p.cur := None;
  }

  /** Closing twice gives the grant back once. */
  method CloseTwice(p: Pacer?)
    requires p != null ==> p.Valid()
    modifies p, QueueFrame(p)`outstanding
    ensures p != null ==> p.cur.None?
    ensures p != null && p.wq != null ==> p.wq.outstanding == old(p.wq.outstanding) - old(p.Held())
  {
    Close(p);
    Close(p);
  }
}
