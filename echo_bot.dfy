/**
 * The echo bot of bot.py: a two-state machine whose per-chat state name is
 * kept in Redis under the key `str(chat_id)`. `/start` always runs the START
 * handler; otherwise the stored name (START when absent or empty) picks the
 * handler, and the name the handler returns is written back.
 */
module EchoBot {
  import opened Wrappers
  import opened PyStr

  datatype EchoState = Start | Echo

  const Greeting := "Привет!"
  const StartCommand := "/start"

  /** The name a state is stored under. */
  function Name(state: EchoState): (name: string)
    ensures name != ""
  {
    match state
    case Start => "START"
    case Echo => "ECHO"
  }

  /** `states_functions[name]`: `None` is the KeyError of an unknown name. */
  function Lookup(name: string): (r: Option<EchoState>)
    ensures r.Some? ==> Name(r.value) == name
  {
    if name == "START" then Some(Start)
    else if name == "ECHO" then Some(Echo)
    else None
  }

  /** Every stored name is read back as the state it names. */
  lemma LookupOfName(state: EchoState)
    ensures Lookup(Name(state)) == Some(state)
  {
  }

  /**
   * The handler chosen for a message with text `text` (`None` for a message
   * without text) in a chat whose stored value is `stored`.
   */
  function Route(text: Option<string>, stored: Option<string>): (r: Option<EchoState>)
    ensures text == Some(StartCommand) ==> r == Some(Start)
    ensures text != Some(StartCommand) && (stored.None? || stored.value == "") ==> r == Some(Start)
    ensures text != Some(StartCommand) && stored.Some? && stored.value != "" ==>
      (r.Some? <==> stored.value == "START" || stored.value == "ECHO")
    ensures r.Some? && text != Some(StartCommand) && stored.Some? && stored.value != "" ==> Name(r.value) == stored.value
  {
    if text == Some(StartCommand) then Some(Start)
    else if stored.None? || stored.value == "" then Some(Start)
    else Lookup(stored.value)
  }

  /** The Redis key of a chat, `str(chat_id)`: a non-empty string that reads back as the chat id. */
  function Key(chatId: int): (key: string)
    ensures key != "" && ParseInt(key) == Some(chatId)
  {
    ParseIntOfIntToString(chatId);
    IntToString(chatId)
  }

  /** Two chats never share a key. */
  lemma KeysAreDistinct(a: int, b: int)
    requires a != b
    ensures Key(a) != Key(b)
  {
    IntToStringInjective(a, b);
  }

  /** `redis_conn.get(key)`. */
  function Stored(redis: map<string, string>, key: string): (r: Option<string>)
    ensures r.Some? <==> key in redis
    ensures r.Some? ==> r.value == redis[key]
  {
    if key in redis then Some(redis[key]) else None
  }

  /** Once a chat has been handled, its next message is echoed unless it is `/start`. */
  lemma EchoesAfterFirstReply(redis: map<string, string>, chatId: int, text: Option<string>)
    requires text != Some(StartCommand)
    ensures Route(text, Stored(redis[Key(chatId) := "ECHO"], Key(chatId))) == Some(Echo)
  {
  }

  class Bot {
    /** The Redis database: key to stored state name. */
    var redis: map<string, string>
    /** The texts the bot has sent, in order. */
    var sent: seq<string>

    constructor (initial: map<string, string>)
      ensures redis == initial && sent == []
    {
      redis, sent := initial, [];
    }

    /** `start`: greets and asks for the ECHO state; the send may fail. */
    method StartHandler() returns (next: Result<string>)
      modifies this
      ensures redis == old(redis)
      ensures next.Ok? ==> next.value == Name(Echo) && sent == old(sent) + [Greeting]
      ensures next.Raise? ==> next.error == TelegramError && sent == old(sent)
    {
      var delivered: bool := *;
      if !delivered {
        return Raise(TelegramError);
      }
      sent := sent + [Greeting];
      next := Ok(Name(Echo));
    }

    /** `echo`: sends back the user's text; a message without text cannot be sent. */
    method EchoHandler(text: Option<string>) returns (next: Result<string>)
      modifies this
      ensures redis == old(redis)
      ensures text.None? ==> next == Raise(ValidationError) && sent == old(sent)
      ensures next.Ok? ==> text.Some? && next.value == Name(Echo) && sent == old(sent) + [text.value]
      ensures next.Raise? ==> sent == old(sent)
    {
      if text.None? {
        return Raise(ValidationError);
      }
      var delivered: bool := *;
      if !delivered {
        return Raise(TelegramError);
      }
      sent := sent + [text.value];
      next := Ok(Name(Echo));
    }

    /**
     * `handle_users_reply`: routes the message, runs the handler and stores
     * the state it returns under the chat's key. A handler's exception is
     * caught and nothing is stored; an unknown stored name escapes as a
     * KeyError before any handler runs.
     */
    method HandleUsersReply(chatId: int, text: Option<string>) returns (escaped: Option<Exception>)
      modifies this
      ensures redis == old(redis) || redis == old(redis)[Key(chatId) := Name(Echo)]
      ensures Route(text, Stored(old(redis), Key(chatId))).None? ==>
        escaped == Some(KeyError) && redis == old(redis) && sent == old(sent)
      ensures Route(text, Stored(old(redis), Key(chatId))) == Some(Start) ==>
        escaped.None? &&
        ((redis == old(redis)[Key(chatId) := Name(Echo)] && sent == old(sent) + [Greeting]) ||
         (redis == old(redis) && sent == old(sent)))
      ensures Route(text, Stored(old(redis), Key(chatId))) == Some(Echo) ==>
        escaped.None? &&
        ((text.Some? && redis == old(redis)[Key(chatId) := Name(Echo)] && sent == old(sent) + [text.value]) ||
         (redis == old(redis) && sent == old(sent)))
    {
      var key := Key(chatId);
      var route := Route(text, Stored(redis, key));
      if route.None? {
        return Some(KeyError);
      }
      var next: Result<string>;
      if route.value == Start {
        next := StartHandler();
      } else {
        next := EchoHandler(text);
      }
      escaped := None;
      if next.Ok? {
        redis := redis[key := next.value];
      }
    }
  }

  /** Other chats' stored states are untouched by a message in this chat. */
  lemma OtherChatsUntouched(before: map<string, string>, chatId: int, other: int)
    requires other != chatId
    ensures Stored(before[Key(chatId) := Name(Echo)], Key(other)) == Stored(before, Key(other))
  {
    KeysAreDistinct(chatId, other);
  }
}
