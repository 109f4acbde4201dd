// internal/observability/health.go: whether the backend answered recently.
module Observability {
  datatype HealthState = HealthState(window: int, startedAt: int, lastOK: int, hasOK: bool)

  function NewHealth(window: int, now: int): HealthState {
    HealthState(window, now, 0, false)
  }

  function Recorded(h: HealthState, now: int): HealthState {
    h.(lastOK := now, hasOK := true)
  }

  predicate ReadyAt(h: HealthState, now: int) {
    if !h.hasOK then now - h.startedAt < h.window else now - h.lastOK < h.window
  }

  class Health {
    const window: int
    const startedAt: int
    var lastOK: int
    var hasOK: bool

    function Value(): HealthState
      reads this
    {
      HealthState(window, startedAt, lastOK, hasOK)
    }

    constructor (window: int, now: int)
      ensures Value() == NewHealth(window, now)
    {
      this.window, this.startedAt := window, now;
      lastOK, hasOK := 0, false;
    }

    // A nil Health records nothing.
    static method RecordSuccess(h: Health?, now: int)
      modifies h
      ensures h != null ==> h.Value() == Recorded(old(h.Value()), now)
    {
      if h == null {
        return;
      }
      h.lastOK := now;
      h.hasOK := true;
    }

    // A nil Health is always ready.
    static method Ready(h: Health?, now: int) returns (ready: bool)
      ensures ready <==> h == null || ReadyAt(h.Value(), now)
    {
      if h == null {
        return true;
      }
      if !h.hasOK {
        return now - h.startedAt < h.window;
      }
      return now - h.lastOK < h.window;
    }
  }
}
