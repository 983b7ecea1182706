/** Option and Result wrappers shared by every module, and the Python
    exception kinds that the modelled code can raise. */
module Wrappers {

  datatype Option<+T> = None | Some(value: T)

  datatype Result<+T, +E> = Ok(value: T) | Err(error: E)

  /** The exceptions the bot's handlers can end with.  `DeliveryError`
      stands for any failure of a Bot API call (blocked user, bot not in
      the chat, network error); the rest are the Python built-ins or the
      SQLite error the code can hit. */
  datatype Exception =
    | ValueError      // int() of a non-numeric string
    | IndexError      // split("_")[1] of a string without "_"
    | KeyError        // data['server_name'] when the key is absent
    | TypeError       // subscripting the None that fetchone() returned
    | AttributeError  // None.isdigit() for a message without text
    | IntegrityError  // NOT NULL constraint failed
    | OverflowError   // an int outside SQLite's 64-bit INTEGER bound as a parameter
    | DeliveryError   // a Bot API call failed
}
