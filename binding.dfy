/** The driver's binding state, the file-scope `i2c_device.client` together with the
    registration of the misc device, and what a sequence of probe and remove
    callbacks does to it. */
module Binding {
  import opened I2C

  datatype Option<T> = None | Some(value: T)

  /** What the driver keeps of a `struct i2c_client`: its slave address and the
      adapter it sits on (an opaque reference). */
  datatype Client = Client(addr: u16, adapter: nat)

  /** `client` is the stored `i2c_device.client` (None is NULL); `registered` says
      whether the misc device "myi2cdev" is currently registered. */
  datatype State = State(client: Option<Client>, registered: bool)

  /** The state before any callback ran: client NULL, nothing registered. */
  const Initial := State(None, false)

  /** A probe of `c` whose `misc_register` call returned `regRet`, or a remove. */
  datatype Event = Bind(c: Client, regRet: int) | Unbind

  /** The effect of one callback. A probe stores its client only when the
      registration returned 0; a remove deregisters and leaves the client alone. */
  function Step(s: State, e: Event): (t: State)
  {
    match e
    case Bind(c, regRet) => if regRet != 0 then s else State(Some(c), true)
    case Unbind => s.(registered := false)
  }

  /** The state after the callbacks `es`, in order, starting from `s`. */
  function Run(s: State, es: seq<Event>): (t: State)
    decreases |es|
  {
    if |es| == 0 then s else Run(Step(s, es[0]), es[1..])
  }

  /** The client of the latest probe in `es` whose registration succeeded. */
  function LastBound(es: seq<Event>): (c: Option<Client>)
    decreases |es|
  {
    if |es| == 0 then None
    else
      match es[|es| - 1]
      case Bind(c, regRet) => if regRet == 0 then Some(c) else LastBound(es[..|es| - 1])
      case Unbind => LastBound(es[..|es| - 1])
  }

  /** Whether the latest callback of `es` that changes the registration, a
      successful probe or a remove, left the misc device registered. */
  function LastRegistration(es: seq<Event>): (r: Option<bool>)
    decreases |es|
  {
    if |es| == 0 then None
    else
      match es[|es| - 1]
      case Bind(_, regRet) => if regRet == 0 then Some(true) else LastRegistration(es[..|es| - 1])
      case Unbind => Some(false)
  }

  /** Running one more callback is one more step. */
  lemma {:induction false} RunSnoc(s: State, es: seq<Event>, e: Event)
    ensures Run(s, es + [e]) == Step(Run(s, es), e)
    decreases |es|
  {
    if |es| == 0 {
      assert es + [e] == [e];
      assert [e][1..] == [];
    } else {
      assert (es + [e])[1..] == es[1..] + [e];
      RunSnoc(Step(s, es[0]), es[1..], e);
    }
  }

  /** The stored client is the one of the latest successful probe, or the one
      stored before when no probe succeeded: remove never clears it. */
  lemma {:induction false} RunClient(s: State, es: seq<Event>)
    ensures Run(s, es).client == if LastBound(es).Some? then LastBound(es) else s.client
    decreases |es|
  {
    if |es| > 0 {
      var init, e := es[..|es| - 1], es[|es| - 1];
      assert es == init + [e];
      RunSnoc(s, init, e);
      RunClient(s, init);
    }
  }

  /** The misc device is registered exactly when the latest successful probe
      came after the latest remove; with neither, the registration is unchanged. */
  lemma {:induction false} RunRegistered(s: State, es: seq<Event>)
    ensures Run(s, es).registered == match LastRegistration(es)
                                     case None => s.registered
                                     case Some(r) => r
    decreases |es|
  {
    if |es| > 0 {
      var init, e := es[..|es| - 1], es[|es| - 1];
      assert es == init + [e];
      RunSnoc(s, init, e);
      RunRegistered(s, init);
    }
  }

  /** Once a client is stored, no sequence of callbacks makes it NULL again: after
      a remove the driver still holds the pointer of the client it was bound to. */
  lemma {:induction false} BoundStaysBound(s: State, es: seq<Event>)
    requires s.client.Some?
    ensures Run(s, es).client.Some?
  {
    RunClient(s, es);
  }

  /** From the initial state, the driver holds a client exactly when some probe
      succeeded; a run of failed probes and removes leaves it NULL. */
  lemma {:induction false} InitialClient(es: seq<Event>)
    ensures Run(Initial, es).client.Some? <==> exists i :: 0 <= i < |es| && es[i].Bind? && es[i].regRet == 0
    decreases |es|
  {
    RunClient(Initial, es);
    LastBoundSome(es);
  }

  /** A probe that succeeded somewhere in `es` is what makes LastBound defined. */
  lemma {:induction false} LastBoundSome(es: seq<Event>)
    ensures LastBound(es).Some? <==> exists i :: 0 <= i < |es| && es[i].Bind? && es[i].regRet == 0
    decreases |es|
  {
    if |es| > 0 {
      var init := es[..|es| - 1];
      LastBoundSome(init);
      if LastBound(es).Some? {
        if !(es[|es| - 1].Bind? && es[|es| - 1].regRet == 0) {
          var i :| 0 <= i < |init| && init[i].Bind? && init[i].regRet == 0;
          assert es[i] == init[i];
        }
      } else {
        forall i | 0 <= i < |es|
          ensures !(es[i].Bind? && es[i].regRet == 0)
        {
          if i < |init| {
            assert es[i] == init[i];
          }
        }
      }
    }
  }
}
