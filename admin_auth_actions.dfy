/** The admin authentication-actions panel
    (components/admin/AdminAuthActions.tsx): an email and a redirect URL, one
    button per action, each POSTing the trimmed fields to an admin route and
    showing the outcome. */
module AdminAuthActions {
  import opened Common

  const DefaultRedirect := "https://www.autoflexeasy.com/auth/callback"
  const Done := "Hecho ✅"
  const Sending := "Enviando…"

  // ---------------------------------------------------------------------------
  // String.prototype.trim
  // ---------------------------------------------------------------------------

  /** ECMAScript WhiteSpace and LineTerminator code points. */
  predicate IsJsSpace(c: char) {
    var n := c as int;
    n == 0x09 || n == 0x0A || n == 0x0B || n == 0x0C || n == 0x0D || n == 0x20 ||
    n == 0xA0 || n == 0x1680 || (0x2000 <= n <= 0x200A) || n == 0x2028 || n == 0x2029 ||
    n == 0x202F || n == 0x205F || n == 0x3000 || n == 0xFEFF
  }

  /** The input without its leading white space. */
  function TrimStart(s: string): string
    decreases |s|
  {
    if s != [] && IsJsSpace(s[0]) then TrimStart(s[1..]) else s
  }

  /** The input without its trailing white space. */
  function TrimEnd(s: string): string
    decreases |s|
  {
    if s != [] && IsJsSpace(s[|s| - 1]) then TrimEnd(s[..|s| - 1]) else s
  }

  /** TrimStart drops a prefix made only of white space and stops at the
      first other character. */
  lemma {:induction false} TrimStartDropsSpace(s: string)
    ensures var r := TrimStart(s);
      && |r| <= |s| && r == s[|s| - |r|..]
      && (forall i :: 0 <= i < |s| - |r| ==> IsJsSpace(s[i]))
      && (r == "" || !IsJsSpace(r[0]))
    decreases |s|
  {
    if s != [] && IsJsSpace(s[0]) {
      TrimStartDropsSpace(s[1..]);
      var r := TrimStart(s[1..]);
      forall i | 1 <= i < |s| - |r| ensures IsJsSpace(s[i]) {
        assert s[i] == s[1..][i - 1];
      }
    }
  }

  /** TrimEnd drops a suffix made only of white space and stops at the last
      other character. */
  lemma {:induction false} TrimEndDropsSpace(s: string)
    ensures var r := TrimEnd(s);
      && |r| <= |s| && r == s[..|r|]
      && (forall i :: |r| <= i < |s| ==> IsJsSpace(s[i]))
      && (r == "" || !IsJsSpace(r[|r| - 1]))
    decreases |s|
  {
    if s != [] && IsJsSpace(s[|s| - 1]) {
      var t := s[..|s| - 1];
      TrimEndDropsSpace(t);
      var r := TrimEnd(t);
      assert r == s[..|r|] by { assert t[..|r|] == s[..|r|]; }
      forall i | |r| <= i < |s| - 1 ensures IsJsSpace(s[i]) {
        assert s[i] == t[i];
      }
    }
  }

  /** `s.trim()`: the input without its leading and trailing white space. */
  function Trim(s: string): string
  {
    TrimEnd(TrimStart(s))
  }

  /** The trimmed string is a slice of the input with white space on
      neither end, everything cut away is white space, and it is empty
      exactly when the input is all white space. */
  lemma TrimmedSlice(s: string)
    ensures var r, a := Trim(s), |s| - |TrimStart(s)|;
      && (r == "" || (!IsJsSpace(r[0]) && !IsJsSpace(r[|r| - 1])))
      && 0 <= a && a + |r| <= |s| && r == s[a..a + |r|]
      && (forall i :: 0 <= i < a ==> IsJsSpace(s[i]))
      && (forall i :: a + |r| <= i < |s| ==> IsJsSpace(s[i]))
      && (r == "" <==> forall i :: 0 <= i < |s| ==> IsJsSpace(s[i]))
  {
    var t := TrimStart(s);
    TrimStartDropsSpace(s);
    TrimEndDropsSpace(t);
    var r := TrimEnd(t);
    var a := |s| - |t|;
    assert r == s[a..a + |r|] by { assert t[..|r|] == s[a..a + |r|]; }
    forall i | a + |r| <= i < |s| ensures IsJsSpace(s[i]) {
      assert s[i] == t[i - a];
    }
    if r != "" {
      assert r[0] == t[0];
    }
    if t != "" {
      assert t[0] == s[a];
    }
  }

  // ---------------------------------------------------------------------------
  // Response parsing and the error message
  // ---------------------------------------------------------------------------

  /** The two fields of a parsed JSON body that the panel reads. */
  datatype Fields = Fields(error: Option<string>, message: Option<string>)

  /** What `JSON.parse(text)` does: throw, or give an object (`None` for
      JSON null or a value without fields). */
  datatype JsonParse = Unparsable | Value(fields: Option<Fields>)

  datatype Parsed = Parsed(data: Option<Fields>, raw: string)

  /** `safeParse`: the raw text is always kept; an empty body is not parsed
      and gives null data, an unparsable one gives null data as well. */
  function SafeParse(text: string, parse: JsonParse): (p: Parsed)
    ensures p.raw == text
    ensures text == "" ==> p.data.None?
    ensures parse.Unparsable? ==> p.data.None?
    ensures text != "" && parse.Value? ==> p.data == parse.fields
  {
    if text == "" then Parsed(None, text)
    else match parse
      case Unparsable => Parsed(None, text)
      case Value(f) => Parsed(f, text)
  }

  /** `data?.error || data?.message || raw || res.statusText || 'Error desconocido'` */
  function ServerMessage(p: Parsed, statusText: string): (r: string)
    ensures r != ""
  {
    var error := if p.data.Some? then p.data.value.error else None;
    var message := if p.data.Some? then p.data.value.message else None;
    FirstTruthy([error, message, Some(p.raw), Some(statusText)], "Error desconocido")
  }

  /** The server's message for a failed request follows the stated precedence:
      the body's `error`, then its `message`, then the raw text, then the
      status text, then the fixed fallback. */
  lemma MessagePrecedence(p: Parsed, statusText: string)
    ensures var error := if p.data.Some? then p.data.value.error else None;
      var message := if p.data.Some? then p.data.value.message else None;
      ServerMessage(p, statusText) ==
        if Truthy(error) then error.value
        else if Truthy(message) then message.value
        else if p.raw != "" then p.raw
        else if statusText != "" then statusText
        else "Error desconocido"
  {
    var error := if p.data.Some? then p.data.value.error else None;
    var message := if p.data.Some? then p.data.value.message else None;
    var cs := [error, message, Some(p.raw), Some(statusText)];
    var r := FirstTruthy(cs, "Error desconocido");
    if Truthy(error) {
      assert Truthy(cs[0]);
    } else if Truthy(message) {
      assert Truthy(cs[1]) && !Truthy(cs[0]);
    } else if p.raw != "" {
      assert Truthy(cs[2]) && !Truthy(cs[0]) && !Truthy(cs[1]);
    } else if statusText != "" {
      assert Truthy(cs[3]) && !Truthy(cs[0]) && !Truthy(cs[1]) && !Truthy(cs[2]);
    } else {
      assert forall i :: 0 <= i < |cs| ==> !Truthy(cs[i]);
    }
  }

  /** What `fetch` does: throw (with the error's message), or answer. */
  datatype FetchReply =
    | FetchThrew(message: Option<string>)
    | Answered(ok: bool, statusText: string, text: string, parse: JsonParse)

  /** The message `call` shows when it finishes. */
  function CallMessage(reply: FetchReply): (m: string)
    ensures reply.Answered? && reply.ok ==> m == Done
    ensures reply.Answered? && !reply.ok ==>
      m == "Error: " + ServerMessage(SafeParse(reply.text, reply.parse), reply.statusText)
    ensures reply.FetchThrew? ==> m == "Error: " + Or(reply.message, "falló la solicitud")
  {
    match reply
    case FetchThrew(message) => "Error: " + Or(message, "falló la solicitud")
    case Answered(ok, statusText, text, parse) =>
      if ok then Done
      else "Error: " + Or(Some(ServerMessage(SafeParse(text, parse), statusText)), "falló la solicitud")
  }

  /** The JSON body the panel posts. */
  datatype RequestBody = RequestBody(email: string, redirectTo: string)

  // ---------------------------------------------------------------------------
  // The panel's state
  // ---------------------------------------------------------------------------

  class Panel {
    var email: string
    var redirectTo: string
    var msg: Option<string>
    /** The path of the request in flight, if any. */
    var loading: Option<string>

    constructor ()
      ensures email == "" && redirectTo == DefaultRedirect && msg == None && loading == None
    {
      email, redirectTo, msg, loading := "", DefaultRedirect, None, None;
    }

    /** One action button: disabled while the email is blank or any request
        is in flight, and showing 'Enviando…' only while its own request is. */
    method Button(path: string, caption: string) returns (disabled: bool, text: string)
      ensures disabled <==> Trim(email) == "" || Truthy(loading)
      ensures text == (if loading == Some(path) then Sending else caption)
      ensures loading == Some(path) && path != "" ==> disabled
    {
      disabled := Trim(email) == "" || Truthy(loading);
      text := if loading == Some(path) then Sending else caption;
    }

    method EditEmail(value: string)
      modifies this
      ensures email == value && redirectTo == old(redirectTo) && msg == old(msg) && loading == old(loading)
    {
      email := value;
    }

    method EditRedirectTo(value: string)
      modifies this
      ensures redirectTo == value && email == old(email) && msg == old(msg) && loading == old(loading)
    {
      redirectTo := value;
    }

    /** The start of `call(path)`: clear the message, mark the path as in
        flight, and build the body from the trimmed fields. */
    method BeginCall(path: string) returns (body: RequestBody)
      modifies this
      ensures msg == None && loading == Some(path)
      ensures body == RequestBody(Trim(email), Trim(redirectTo))
      ensures email == old(email) && redirectTo == old(redirectTo)
    {
      body := RequestBody(Trim(email), Trim(redirectTo));
      msg, loading := None, Some(path);
    }

    /** The end of `call(path)`: show the outcome, and (the `finally`) clear
        the in-flight path whatever happened. */
    method FinishCall(reply: FetchReply)
      modifies this
      ensures msg == Some(CallMessage(reply)) && loading == None
      ensures email == old(email) && redirectTo == old(redirectTo)
    {
      if reply.FetchThrew? {
        msg := Some("Error: " + Or(reply.message, "falló la solicitud"));
      } else if !reply.ok {
        var parsed := SafeParse(reply.text, reply.parse);
        var serverMsg := ServerMessage(parsed, reply.statusText);
        msg := Some("Error: " + Or(Some(serverMsg), "falló la solicitud"));
      } else {
        msg := Some(Done);
      }
      loading := None;
    }

    /** A whole `call(path)`. */
    method Call(path: string, reply: FetchReply) returns (body: RequestBody)
      modifies this
      ensures body == RequestBody(Trim(old(email)), Trim(old(redirectTo)))
      ensures msg == Some(CallMessage(reply)) && loading == None
      ensures email == old(email) && redirectTo == old(redirectTo)
      ensures !(Trim(email) == "" || Truthy(loading)) <==> Trim(old(email)) != ""
    {
      body := BeginCall(path);
      FinishCall(reply);
    }
  }

  /** A failed request never shows the generic fallback of a thrown error:
      its message always carries a non-empty server message. */
  lemma FailedAnswerHasServerMessage(statusText: string, text: string, parse: JsonParse)
    ensures var m := CallMessage(Answered(false, statusText, text, parse));
      |m| > |"Error: "| && m[..7] == "Error: "
  {
  }
}
