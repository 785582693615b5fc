/** What the machine's steps leave alone: the slice's parameters and the stack in use. */
module MachineFrame {
  import opened Common
  import opened Pools
  import opened Machine
  import opened MachineInvariant
  import opened MachineProofs

  /** The only step that takes a stack from the pool. */
  predicate Takes(m: State, e: Event) {
    e.Main? && m.pc == Bootstrap && m.task.errno.None?
  }

  /** The only step that gives one back. */
  predicate Gives(m: State, e: Event) {
    e.Main? && m.pc.DescheduleEnd? && m.pc.replaced.errno.None?
  }

  lemma SetupKeepsStack(m: State)
    requires Inv(m) && m.pc in {BlockFirst, Arm, SetSignal, SetSignalEnd, Bootstrap, SetDeadline}
    ensures SameSlice(m, SetupStep(m))
    ensures if Takes(m, Main(0)) then
              Stack(m).None? && SetupStep(m).stacks == TakeStack(m.stacks).0 &&
              Stack(SetupStep(m)) == Some(TakeStack(m.stacks).1)
            else Unmoved(m, SetupStep(m))
  {
  }

  lemma SwitchKeepsStack(m: State)
    requires Inv(m)
    requires m.pc.PutCheckpoint? ||
             m.pc in {TakeCheckpoint, PutCheckpointEnd, ResumeReadSignal, ResumeReadSignalEnd, MaskBlock, StampResume,
                      SwitchGroup, RestoreErrno, Jump}
    ensures Unmoved(m, SwitchStep(m))
  {
  }

  lemma DescheduleKeepsStack(m: State)
    requires Inv(m) && (m.pc == Deschedule || m.pc.DescheduleEnd?)
    ensures SameSlice(m, DescheduleStep(m))
    ensures if Gives(m, Main(0)) then
              Stack(m).Some? && Stack(DescheduleStep(m)).None? &&
              DescheduleStep(m).stacks == Release(m.stacks, Stack(m).value)
            else Unmoved(m, DescheduleStep(m))
  {
  }

  lemma MainlineFrame(m: State, e: Event)
    requires Inv(m) && CanHappen(m, e) && e.Main? && !m.pc.Fun?
    ensures Framed(m, e)
  {
    JunkKeepsInv(m, e.junk);
    var m' := m.(sharedErrno := e.junk);
    if m.pc in {BlockFirst, Arm, SetSignal, SetSignalEnd, Bootstrap, SetDeadline} {
      SetupKeepsStack(m');
    } else if m.pc == Deschedule || m.pc.DescheduleEnd? {
      DescheduleKeepsStack(m');
    } else {
      SwitchKeepsStack(m');
    }
  }

  ghost predicate Framed(m: State, e: Event) {
    SameSlice(m, Step(m, e)) &&
    if Takes(m, e) then
      Stack(m).None? && Step(m, e).stacks == TakeStack(m.stacks).0 &&
      Stack(Step(m, e)) == Some(TakeStack(m.stacks).1)
    else if Gives(m, e) then
      Stack(m).Some? && Stack(Step(m, e)).None? && Step(m, e).stacks == Release(m.stacks, Stack(m).value)
    else Unmoved(m, Step(m, e))
  }

  lemma StepFrame(m: State, e: Event)
    requires Inv(m) && CanHappen(m, e)
    ensures Framed(m, e)
  {
    match e
    case Main(junk) => if m.pc.Fun? { FunKeepsInv(m, m.pc.f, junk); } else { MainlineFrame(m, e); }
    case Deliver(junk) => HandlerKeepsInv(m, junk);
    case Tick =>
    case Clock(_) =>
  }
}
