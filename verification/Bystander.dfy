/** What happens to an identifier while another one is served: nothing, if no decision would take a frame of it. */
module Bystander {
  import opened Frames
  import opened Window
  import opened Softc
  import opened Steps
  import Aggregate
  import Scheduling

  /** No scheduling decision takes a frame: nothing is queued, or the first frame is outside the window. */
  predicate Quiet(tid: Tid) {
    tid.bufq == [] || (tid.aggr && Offset(tid.win.seqStart, tid.bufq[0].seqno) >= WME_MAX_BA)
  }

  lemma QuietChosen(s: Sc, t: TidId, limit: nat)
    requires Quiet(s.tids[t])
    ensures SchedTid(s, t, limit) == s
  {
    hide Aggregate.FormAggr, Aggregate.WellLaid, U16;
    U16Small(limit);
    if s.tids[t].bufq != [] {
      Aggregate.FormLaid(s.tids[t].win.seqStart, s.tids[t].bufq, U16(limit), s.k2);
    }
  }

  /** Nothing of t changed but its mark. */
  predicate Aside(s: Sc, r: Sc, t: TidId) {
    r.tids[t] == s.tids[t].(sched := r.tids[t].sched)
  }

  lemma {:induction false} ScheduleAside(s: Sc, q: Ac, limit: nat, t: TidId)
    requires Quiet(s.tids[t])
    ensures Aside(s, Schedule(s, q, limit), t)
    decreases |s.tidq[q]|
  {
    hide SchedTid, QueueOf;
    if s.tidq[q] != [] {
      var v := s.tidq[q][0];
      var s1 := Dequeue(s, q);
      if s.tids[v].paused {
        ScheduleAside(s1, q, limit, t);
      } else {
        SchedTidAside(s1, v, limit, t);
      }
    }
  }

  lemma SchedTidAside(s: Sc, v: TidId, limit: nat, t: TidId)
    requires Quiet(s.tids[t])
    ensures SchedTid(s, v, limit).tids[t] == s.tids[t]
  {
    hide QueueOf, AddFrames, Chosen;
    QuietChosen(s, t, limit);
  }

  lemma ResumeAside(s: Sc, v: TidId, limit: nat, t: TidId)
    requires Quiet(s.tids[t])
    ensures v != t ==> Aside(s, Resume(s, v, limit), t)
    ensures v == t ==> var r := Resume(s, v, limit);
      r.tids[t] == s.tids[t].(paused := false, sched := r.tids[t].sched)
      && (s.tids[t].bufq == [] ==> r.tids[t].sched == s.tids[t].sched)
  {
    hide Schedule, QueueOf;
    var s1 := SetTid(s, v, s.tids[v].(paused := false));
    ScheduleAside(Enqueue(s1, QueueOf(v), v), QueueOf(v), limit, t);
  }

  lemma TidCleanupAside(s: Sc, v: TidId, limit: nat, t: TidId)
    requires Quiet(s.tids[t]) && v != t
    ensures Aside(s, TidCleanup(s, v, limit), t)
  {
    hide Resume;
    var s1 := SetTid(s, v, s.tids[v].(incomp := s.tids[v].incomp - 1));
    ResumeAside(SetTid(s1, v, s1.tids[v].(cleanup := false)), v, limit, t);
  }

  lemma {:induction false} CompCleanupAside(s: Sc, v: TidId, c: seq<Frame>, limit: nat, t: TidId)
    requires Quiet(s.tids[t]) && v != t
    ensures Aside(s, CompCleanup(s, v, c, limit), t)
    decreases |c|
  {
    hide TidCleanup;
    if c != [] {
      var s1 := FreeBuf(s, c[0]);
      TidCleanupAside(s1, v, limit, t);
      if s1.tids[v].incomp != 1 { CompCleanupAside(TidCleanup(s1, v, limit), v, c[1..], limit, t); }
    }
  }

  lemma CompAggrAside(s: Sc, v: TidId, c: Chain, st: TxStat, t: TidId)
    requires v != t
    ensures Aside(s, CompAggr(s, v, c, st), t)
  {
    hide CompFrames, QueueOf, Acked, Quiet;
    Scheduling.CompFramesOnly(Acc(s, [], [], 0), v, c, st, UseBa(st));
  }

  lemma CompUnaggrAside(s: Sc, v: TidId, f: Frame, st: TxStat, linked: bool, t: TidId)
    requires v != t
    ensures Aside(s, CompUnaggr(s, v, f, st, linked), t)
  {
    hide Resolve, QueueOf;
  }

  lemma DisableAside(s: Sc, v: TidId, limit: nat, t: TidId)
    requires Quiet(s.tids[t]) && v != t
    ensures Aside(s, Disable(s, v, limit), t)
  {
    hide Resume, FreeAll, Flush, FlushRetried;
    var s0 := SetTid(s, v, s.tids[v].(aggr := false));
    FreeAllKeepsTidq(s0, s0.tids[v].bufq);
    var s1 := SetTid(FreeAll(s0, s0.tids[v].bufq), v, CleanupTid(s0.tids[v]));
    ResumeAside(s1, v, limit, t);
  }

  lemma CompBarAside(s: Sc, v: TidId, f: Frame, st: TxStat, linked: bool, limit: nat, t: TidId)
    requires Quiet(s.tids[t]) && v != t
    ensures Aside(s, CompBar(s, v, f, st, linked, limit), t)
  {
    hide Resume, Disable, FreeAll, QueueOf, Quiet, DrainTid;
    ResumeAside(s, v, limit, t);
    DisableAside(s, v, limit, t);
    var s1 := Disable(s, v, limit);
    FreeAllKeepsTidq(s1, s1.tids[v].bufq);
  }
}
