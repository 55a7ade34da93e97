/** The two kinds of code that talk to the broker through slots: the resolver of broker-resolver.go
    and the runner of docker-runner.go, and the actions of the protocol that stand for them. */
module BrokerClients {
  import opened Wrappers
  import opened BrokerModel
  import opened BrokerProtocol
  import opened Broker

  /** What the resolver makes of the broker's reply. */
  datatype Reply = Connect(address: string) | Refused(text: string) | Unknown | NoAddress

  /** slot.Send(Acquire) */
  method RequestContainer(slot: BrokerSlot, slotType: string, info: RunInfo)
    modifies slot`input
    ensures slot.View() == Push(old(slot.View()), AcquireMsg(slotType, info))
  {
    slot.Send(AcquireMsg(slotType, info));
  }

  /** slot.Read(), then the switch on the message; a slot is released later only after Connect. */
  method ReadReplyOf(slot: BrokerSlot) returns (reply: Reply)
    requires slot.output != []
    modifies slot`output
    ensures slot.View() == Pop(old(slot.View()))
    ensures reply.Connect? <==> old(slot.output)[0].AcquiredMsg? && old(slot.output)[0].address != ""
    ensures reply.Connect? ==> reply.address == old(slot.output)[0].address
    ensures reply.Refused? <==> old(slot.output)[0].ErrorMsg?
    ensures reply.NoAddress? <==> old(slot.output)[0] == AcquiredMsg("")
  {
    var message := slot.Read();
    match message {
      case AcquiredMsg(address) =>
        if |address| == 0 {
          return NoAddress;
        }
        return Connect(address);
      case ErrorMsg(text) =>
        return Refused(text);
      case _ =>
        return Unknown;
    }
  }

  /** The callback that Closed of the target runs. */
  method NotifyClosed(slot: BrokerSlot)
    modifies slot`input
    ensures slot.View() == Push(old(slot.View()), ReleaseMsg(false))
  {
    slot.Send(ReleaseMsg(false));
  }

  function StartReply(startError: Option<string>, waitError: Option<string>): Message {
    if startError.Some? then ErrorMsg(startError.value)
    else if waitError.Some? then ErrorMsg(waitError.value)
    else StartedMsg
  }

  /** One turn of DockerRunner.Run; how the start and the wait for the container end is up to the
      engine.  Messages other than Start are read and forgotten. */
  method RunnerTurn(slot: BrokerSlot, startError: Option<string>, waitError: Option<string>)
    requires slot.output != []
    modifies slot`input, slot`output
    ensures slot.View() == if old(slot.output)[0].StartMsg?
                           then Push(Pop(old(slot.View())), StartReply(startError, waitError)) else Pop(old(slot.View()))
  {
    var message := slot.Read();
    if message.StartMsg? {
      if startError.Some? {
        slot.Send(ErrorMsg(startError.value));
        return;
      }
      if waitError.Some? {
        slot.Send(ErrorMsg(waitError.value));
        return;
      }
      slot.Send(StartedMsg);
    }
  }

  /** A turn of a runner is the two actions TakeStart and Answer, with the broker free to act in
      between: they change its own slot as the turn does, and nothing else. */
  lemma TurnIsTwoActions(cfg: Settings, c: Config, j: nat, startError: Option<string>, waitError: Option<string>)
    requires Enabled(c, TakeStart(j)) && c.s.targets[j].output[0].StartMsg?
    ensures var d := Next(cfg, c, TakeStart(j));
            var error := if startError.Some? then startError else waitError;
            && Enabled(d, Answer(j, error))
            && Next(cfg, d, Answer(j, error))
               == c.(s := WithTarget(c.s, j, Push(Pop(c.s.targets[j]), StartReply(startError, waitError))))
  {
    var d := Next(cfg, c, TakeStart(j));
    assert d.busy[j := false] == c.busy;
  }
}
