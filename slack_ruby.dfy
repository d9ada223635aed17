/**
 * The Ruby rendering of the Slack package's foreign-function stubs
 * (slack.rb): every `on*` callback and every network method is a no-op
 * that returns nil, so all of them share the one contract `r == Nil`; the
 * constructors ignore their arguments and leave every field nil, and the
 * classes answer the by-name accessors the JSON mapper uses.  The
 * runtime's `cast` is the identity, so `_setField` assigns any value.
 */
module SlackRuby {
  import opened Wrappers
  import opened Mapper

  /** `SlackHandler`: four callbacks, all of which return nil. */
  class SlackHandler {
    constructor ()
    {
    }

    method OnSlackEvent(event: Value) returns (r: Value)
      ensures r == Nil
    {
      r := Nil;
    }

    method OnHello(hello: Value) returns (r: Value)
      ensures r == Nil
    {
      r := Nil;
    }

    method OnSlackError(error: Value) returns (r: Value)
      ensures r == Nil
    {
      r := Nil;
    }

    method OnMessage(message: Value) returns (r: Value)
      ensures r == Nil
    {
      r := Nil;
    }
  }

  /** `User`: a client and a user id. */
  class User {
    var client: Value
    var user: Value

    function View(): Value
      reads this
    {
      Record("slack.User", map["client" := client, "user" := user])
    }

    /** `initialize(client, user)`: the arguments are not stored; both fields start nil. */
    constructor (client: Value, user: Value)
      ensures this.client == Nil && this.user == Nil
    {
      this.client := Nil;
      this.user := Nil;
    }

    /** `__init_fields__`: every declared field to nil. */
    method InitFields()
      modifies this
      ensures View() == Record("slack.User", map["client" := Nil, "user" := Nil])
    {
      client := Nil;
      user := Nil;
    }

    function GetClass(): (c: string)
      reads this
      ensures c == ClassIdOf(View())
    {
      "slack.User"
    }

    /** `_getField(name)`: the named field, nil for any other name. */
    function GetField(name: string): (r: Value)
      reads this
      ensures r == Mapper.GetField(View(), name)
      ensures name != "client" && name != "user" ==> r == Nil
    {
      if name == "client" then client
      else if name == "user" then user
      else Nil
    }

    /** `_setField(name, value)`: assigns the named field only; an unknown name changes nothing. */
    method SetField(name: string, value: Value)
      modifies this
      ensures (name == "client" || name == "user") ==> GetField(name) == value
      ensures forall n :: n != name ==> GetField(n) == old(GetField(n))
      ensures Mapper.SetField(old(View()), name, value) == Ok(View())
    {
      if name == "client" {
        client := value;
      }
      if name == "user" {
        user := value;
      }
      if name == "client" || name == "user" {
        assert View().fields == old(View()).fields[name := value];
      }
    }
  }

  /** `Channel`: a client and a channel id. */
  class Channel {
    var client: Value
    var channel: Value

    function View(): Value
      reads this
    {
      Record("slack.Channel", map["client" := client, "channel" := channel])
    }

    /** `initialize(client, channel)`: the arguments are not stored; both fields start nil. */
    constructor (client: Value, channel: Value)
      ensures this.client == Nil && this.channel == Nil
    {
      this.client := Nil;
      this.channel := Nil;
    }

    /** `send(message)`: a stub returning nil. */
    method Send(message: Value) returns (r: Value)
      ensures r == Nil
    {
      r := Nil;
    }

    /** `__init_fields__`: every declared field to nil. */
    method InitFields()
      modifies this
      ensures View() == Record("slack.Channel", map["client" := Nil, "channel" := Nil])
    {
      client := Nil;
      channel := Nil;
    }

    function GetClass(): (c: string)
      reads this
      ensures c == ClassIdOf(View())
    {
      "slack.Channel"
    }

    /** `_getField(name)`: the named field, nil for any other name. */
    function GetField(name: string): (r: Value)
      reads this
      ensures r == Mapper.GetField(View(), name)
      ensures name != "client" && name != "channel" ==> r == Nil
    {
      if name == "client" then client
      else if name == "channel" then channel
      else Nil
    }

    /** `_setField(name, value)`: assigns the named field only; an unknown name changes nothing. */
    method SetField(name: string, value: Value)
      modifies this
      ensures (name == "client" || name == "channel") ==> GetField(name) == value
      ensures forall n :: n != name ==> GetField(n) == old(GetField(n))
      ensures Mapper.SetField(old(View()), name, value) == Ok(View())
    {
      if name == "client" {
        client := value;
      }
      if name == "channel" {
        channel := value;
      }
      if name == "client" || name == "channel" {
        assert View().fields == old(View()).fields[name := value];
      }
    }
  }

  /** The declared fields of `Client`, in the order `_getField` tests them. */
  const ClientFields: seq<string> := ["runtime", "token", "handler", "event_id", "socket"]

  /** `Client`: the connection state of a Slack client. */
  class Client {
    var runtime: Value
    var token: Value
    var handler: Value
    var eventId: Value
    var socket: Value

    function View(): Value
      reads this
    {
      Record("slack.Client", map["runtime" := runtime, "token" := token, "handler" := handler,
                                 "event_id" := eventId, "socket" := socket])
    }

    /** `initialize(runtime, token, handler)`: the arguments are not stored; every field starts nil. */
    constructor (runtime: Value, token: Value, handler: Value)
      ensures this.runtime == Nil && this.token == Nil && this.handler == Nil
      ensures eventId == Nil && socket == Nil
    {
      this.runtime := Nil;
      this.token := Nil;
      this.handler := Nil;
      eventId := Nil;
      socket := Nil;
    }

    /** `__init_fields__`: every declared field to nil. */
    method InitFields()
      modifies this
      ensures forall i :: 0 <= i < |ClientFields| ==> GetField(ClientFields[i]) == Nil
    {
      runtime := Nil;
      token := Nil;
      handler := Nil;
      eventId := Nil;
      socket := Nil;
    }

    // The network and callback stubs: each returns nil and touches nothing.

    method Connect() returns (r: Value)
      ensures r == Nil
    {
      r := Nil;
    }

    method Request(request: Value, params: Value, handler: Value) returns (r: Value)
      ensures r == Nil
    {
      r := Nil;
    }

    method WsConnect(wsurl: Value) returns (r: Value)
      ensures r == Nil
    {
      r := Nil;
    }

    method WsSend(message: Value) returns (r: Value)
      ensures r == Nil
    {
      r := Nil;
    }

    method OnWSConnected(socket: Value) returns (r: Value)
      ensures r == Nil
    {
      r := Nil;
    }

    method OnWSClose(socket: Value) returns (r: Value)
      ensures r == Nil
    {
      r := Nil;
    }

    method OnWSError(socket: Value) returns (r: Value)
      ensures r == Nil
    {
      r := Nil;
    }

    /** `construct(type)`: no event is built; the answer is nil. */
    method Construct(eventType: Value) returns (r: Value)
      ensures r == Nil
    {
      r := Nil;
    }

    method OnWSMessage(socket: Value, message: Value) returns (r: Value)
      ensures r == Nil
    {
      r := Nil;
    }

    method OnHTTPResponse(request: Value, response: Value) returns (r: Value)
      ensures r == Nil
    {
      r := Nil;
    }

    method OnWSInit(socket: Value) returns (r: Value)
      ensures r == Nil
    {
      r := Nil;
    }

    method OnWSBinary(socket: Value, message: Value) returns (r: Value)
      ensures r == Nil
    {
      r := Nil;
    }

    method OnWSClosed(socket: Value) returns (r: Value)
      ensures r == Nil
    {
      r := Nil;
    }

    method OnWSFinal(socket: Value) returns (r: Value)
      ensures r == Nil
    {
      r := Nil;
    }

    method OnHTTPInit(request: Value) returns (r: Value)
      ensures r == Nil
    {
      r := Nil;
    }

    method OnHTTPError(request: Value, message: Value) returns (r: Value)
      ensures r == Nil
    {
      r := Nil;
    }

    method OnHTTPFinal(request: Value) returns (r: Value)
      ensures r == Nil
    {
      r := Nil;
    }

    function GetClass(): (c: string)
      reads this
      ensures c == ClassIdOf(View())
    {
      "slack.Client"
    }

    /** `_getField(name)`: the named field, nil for any other name. */
    function GetField(name: string): (r: Value)
      reads this
      ensures r == Mapper.GetField(View(), name)
      ensures name !in ClientFields ==> r == Nil
    {
      if name == "runtime" then runtime
      else if name == "token" then token
      else if name == "handler" then handler
      else if name == "event_id" then eventId
      else if name == "socket" then socket
      else Nil
    }

    /** `_setField(name, value)`: assigns the named field only; an unknown name changes nothing. */
    method SetField(name: string, value: Value)
      modifies this
      ensures name in ClientFields ==> GetField(name) == value
      ensures forall n :: n != name ==> GetField(n) == old(GetField(n))
      ensures Mapper.SetField(old(View()), name, value) == Ok(View())
    {
      if name == "runtime" {
        runtime := value;
      }
      if name == "token" {
        token := value;
      }
      if name == "handler" {
        handler := value;
      }
      if name == "event_id" {
        eventId := value;
      }
      if name == "socket" {
        socket := value;
      }
      if name in ClientFields {
        assert View().fields == old(View()).fields[name := value];
      }
    }
  }
}
