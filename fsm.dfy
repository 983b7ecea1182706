/** aiogram's per-user FSM context as the handlers use it: a current state
    (None after `clear()`) and a data dictionary that `update_data` extends
    and only `clear()` empties. */
module Fsm {
  import opened Wrappers

  /** `UserStates` of handlers.py, `AdminStates` and `AdminStatesTwo` of
      admin_panel.py; all of them share one context per user. */
  datatype State =
    | WaitingForServer | WaitingForText | WaitingForPhoto | ConfirmPhotoOption
    | WaitingForServerName | WaitingForChannelId | WaitingForModerationGroup
    | WaitingForAdminId

  /** A stored value: `server_id` is an int; `text`, `server_name` and
      `channel_id` are `message.text`, which is None for a message without text. */
  datatype Value = Int(n: int) | Text(t: Option<string>)

  const ServerIdKey := "server_id"
  const TextKey := "text"
  const ServerNameKey := "server_name"
  const ChannelIdKey := "channel_id"

  /** Every key the handlers write holds the kind of value they write to it. */
  ghost predicate Typed(data: map<string, Value>) {
    && (ServerIdKey in data ==> data[ServerIdKey].Int?)
    && (TextKey in data ==> data[TextKey].Text?)
    && (ServerNameKey in data ==> data[ServerNameKey].Text?)
    && (ChannelIdKey in data ==> data[ChannelIdKey].Text?)
  }

  class Context {
    var state: Option<State>
    var data: map<string, Value>

    ghost predicate Valid()
      reads this
    {
      Typed(data)
    }

    constructor ()
      ensures Valid() && state == None && data == map[]
    {
      state, data := None, map[];
    }

    method SetState(s: State)
      modifies this
      ensures state == Some(s) && data == old(data)
    {
      state := Some(s);
    }

    method UpdateData(key: string, v: Value)
      modifies this
      ensures state == old(state) && data == old(data)[key := v]
    {
      data := data[key := v];
    }

    method Clear()
      modifies this
      ensures Valid() && state == None && data == map[]
    {
      state, data := None, map[];
    }
  }
}
