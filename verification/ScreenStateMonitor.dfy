/** The process-wide view of whether the screen is on, and whether screen events
    are being received. */
module ScreenState {
  import opened Environment

  datatype Monitor = Monitor(isSubscribing: bool, isOn: bool)

  /** After asking for screen events.  A failed request changes nothing; a
      successful one also asks the power manager, when there is one. */
  function AfterSubscribe(m: Monitor, env: Env): Monitor {
    if m.isSubscribing || !env.subscriberOk || !env.subscribeOk then m
    else Monitor(true, if env.powerScreenOn.Some? then env.powerScreenOn.value else m.isOn)
  }

  /** After giving screen events up, whether or not the event service agreed. */
  function AfterUnsubscribe(m: Monitor): Monitor {
    m.(isSubscribing := false)
  }

  class ScreenStateMonitor {
    var isSubscribing: bool
    var isOn: bool

    ghost function State(): Monitor
      reads this
    {
      Monitor(isSubscribing, isOn)
    }

    constructor ()
      ensures State() == Monitor(false, false)
    {
      isSubscribing, isOn := false, false;
    }

    method Subscribe(env: Env)
      modifies this
      ensures State() == AfterSubscribe(old(State()), env)
    {
      if isSubscribing {
        return;
      }
      if !env.subscriberOk {
        return;
      }
      if !env.subscribeOk {
        return;
      }
      isSubscribing := true;
      if env.powerScreenOn.Some? {
        isOn := env.powerScreenOn.value;
      }
    }

    method Unsubscribe()
      modifies this
      ensures State() == AfterUnsubscribe(old(State()))
    {
      isSubscribing := false;
    }

    method SetScreenOn(on: bool)
      modifies this
      ensures State() == old(State()).(isOn := on)
    {
      isOn := on;
    }

    method GetScreenOn() returns (on: bool)
      ensures on == State().isOn
    {
      on := isOn;
    }
  }
}
