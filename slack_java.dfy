/**
 * The generated Java class `slack.User` (a reference to a Slack user):
 * two typed fields and the by-name accessors `_getField`/`_setField` the
 * JSON mapper goes through.
 */
module SlackJava {
  import opened Wrappers
  import opened Mapper

  /** What a `Client`-typed variable can hold: null or a `slack.Client`. */
  predicate IsClient(v: Value)
  {
    v.Nil? || (v.Record? && v.cls == "slack.Client")
  }

  /** What a `String`-typed variable can hold: null or a string. */
  predicate IsString(v: Value)
  {
    v.Nil? || v.Text?
  }

  class User {
    var client: Value
    var user: Value

    /** The Java field types. */
    ghost predicate Valid()
      reads this
    {
      IsClient(client) && IsString(user)
    }

    /** The object as the mapper sees it: a record of class "slack.User" with its two fields. */
    function View(): Value
      reads this
    {
      Record("slack.User", map["client" := client, "user" := user])
    }

    /** `new User(client, user)`: stores both arguments. */
    constructor (client: Value, user: Value)
      requires IsClient(client) && IsString(user)
      ensures this.client == client && this.user == user && Valid()
    {
      this.client := client;
      this.user := user;
    }

    /** `_getClass()`: the class id the mapper writes as "$class". */
    function GetClass(): (c: string)
      reads this
      ensures c == ClassIdOf(View())
    {
      "slack.User"
    }

    /** `_getField(name)`: the named field, null for any other name. */
    function GetField(name: string): (r: Value)
      reads this
      ensures r == Mapper.GetField(View(), name)
      ensures name != "client" && name != "user" ==> r == Nil
    {
      if name == "client" then client
      else if name == "user" then user
      else Nil
    }

    /**
     * `_setField(name, value)`: assigns the named field through a cast to
     * its type; a value of the wrong class throws and changes nothing, and
     * any other name changes nothing.
     */
    method SetField(name: string, value: Value) returns (r: Result<(), MapError>)
      modifies this
      ensures r.Err? <==> (name == "client" && !IsClient(value)) || (name == "user" && !IsString(value))
      ensures r.Err? ==> r.error == CastFailure && client == old(client) && user == old(user)
      ensures r.Ok? && (name == "client" || name == "user") ==> GetField(name) == value
      ensures forall n :: n != name ==> GetField(n) == old(GetField(n))
      ensures r.Ok? ==> Mapper.SetField(old(View()), name, value) == Ok(View())
      ensures old(Valid()) ==> Valid()
    {
      if name == "client" {
        if !IsClient(value) {
          return Err(CastFailure);
        }
        client := value;
      }
      if name == "user" {
        if !IsString(value) {
          return Err(CastFailure);
        }
        user := value;
      }
      if name == "client" || name == "user" {
        assert View().fields == old(View()).fields[name := value];
      }
      return Ok(());
    }
  }
}
