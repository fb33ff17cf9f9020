/** The bot's on/off switch (`src/utils/state.js`). "Now" (`Date.now()`) is a
    parameter of the one operation that reads the clock. */
module State {
  import opened Wrappers

  class BotState {
    var isBotActive: bool
    /** `activationTimestamp`: `None` for the initial `null`. */
    var activationTimestamp: Option<int>

    /** The module's initial values: inactive, never activated. */
    constructor ()
      ensures !isBotActive && activationTimestamp.None?
    {
      isBotActive := false;
      activationTimestamp := None;
    }

    /** `setBotStatus(status)`: switching on records the activation time;
        switching off keeps the last activation time. */
    method SetBotStatus(status: bool, now: int)
      modifies this
      ensures isBotActive == status
      ensures activationTimestamp == if status then Some(now) else old(activationTimestamp)
    {
      isBotActive := status;
      if status {
        activationTimestamp := Some(now);
      }
    }

    /** `getBotStatus`: the last status set. */
    method GetBotStatus() returns (active: bool)
      ensures active == isBotActive
    {
      active := isBotActive;
    }

    /** `getActivationTimestamp`. */
    method GetActivationTimestamp() returns (at: Option<int>)
      ensures at == activationTimestamp
    {
      at := activationTimestamp;
    }
  }
}
