/**
  The three-step handshake that turns a configuration into a ready session:
  installation (only when no state is saved), device registration, and session
  creation. `InstallRun` is the specification of one run; `BunqConfig.Install`
  performs it against an `Environment` and is proved to follow it step by step.
*/
module Handshake {
  import opened Wrappers
  import opened JsonValues
  import opened Envelope
  import opened Records
  import opened Io

  /** A ready session: the session token, the key pair and the user's id. */
  datatype Session = Session(token: string, keypair: KeyPair, userId: i64)

  const INSTALLATION_URL: string := BASE + "/v1/installation"
  const DEVICE_SERVER_URL: string := BASE + "/v1/device-server"
  const SESSION_SERVER_URL: string := BASE + "/v1/session-server"

  /** The device is registered under this description, for these addresses. */
  const DEVICE_DESCRIPTION: string := "awesome"
  const PERMITTED_IPS: seq<string> := ["31.21.118.143", "*"]

  /** Installation is neither authenticated nor signed. */
  function InstallationRequest(publicPem: string): Request
  {
    Request(Post, INSTALLATION_URL, None, None, InstallationBody(publicPem))
  }

  /** Device registration is authenticated by the installation token; the secret is the API key. */
  function DeviceServerRequest(token: string, apiKey: string): Request
  {
    Request(Post, DEVICE_SERVER_URL, Some(token), None, DeviceServerBody(DEVICE_DESCRIPTION, apiKey, PERMITTED_IPS))
  }

  /** Session creation is authenticated by the installation token and signed over its body. */
  function SessionServerRequest(token: string, signature: string, apiKey: string): Request
  {
    Request(Post, SESSION_SERVER_URL, Some(token), Some(signature), SessionServerBody(apiKey))
  }

  /** The installation token in a reply, decoded the flattened way. */
  function InstallationToken(reply: Option<Reply>): Result<string>
  {
    match reply
    case None => Err(Transport)
    case Some(r) =>
      var installation :- DeserializeFlattened(r.json, DecodeInstallationResponse);
      Ok(installation.response.token.token)
  }

  /** The session in a reply: its token and user id, decoded the flattened way, with the key pair. */
  function SessionFrom(reply: Option<Reply>, keypair: KeyPair): Result<Session>
  {
    match reply
    case None => Err(Transport)
    case Some(r) =>
      var session :- DeserializeFlattened(r.json, DecodeSessionServerResponse);
      Ok(Session(session.response.token.token, keypair, session.response.userPerson.id))
  }

  /** A run of the handshake: what it sent and saved, the state it leaves, and its result. */
  datatype Run<T> = Run(events: seq<Event>, state: Option<AppState>, result: Result<T>)

  /**
    The first phase: reuse the saved key, or install a new one, register the
    device and save the new state. It ends with a state whenever it succeeds.
  */
  function Credentials(apiKey: string, state: Option<AppState>, w: World): (run: Run<KeyPair>)
    ensures run.result.Ok? ==> run.state.Some?
    ensures state.Some? ==> run.events == [] && run.state == state
  {
    match state
    case Some(s) =>
      (match w.parsePem(s.pemPrivate)
       case None => Run([], state, Err(CryptoError))
       case Some(k) => Run([], state, Ok(k)))
    case None =>
      match w.generatedKey
      case None => Run([], None, Err(CryptoError))
      case Some(k) =>
        var install := InstallationRequest(k.publicPem);
        match InstallationToken(w.respond(install))
        case Err(e) => Run([Sent(install)], None, Err(e))
        case Ok(token) =>
          var device := DeviceServerRequest(token, apiKey);
          if w.respond(device).None? then Run([Sent(install), Sent(device)], None, Err(Transport))
          else
            var installed := ConfigRecord(apiKey, Some(AppState(token, k.privatePem)));
            var events := [Sent(install), Sent(device), Saved(installed)];
            if !w.store(installed) then Run(events, installed.state, Err(PersistenceError))
            else Run(events, installed.state, Ok(k))
  }

  /** One whole run of the handshake, from the configuration to a session or an error. */
  function InstallRun(apiKey: string, state: Option<AppState>, w: World): Run<Session>
  {
    var creds := Credentials(apiKey, state, w);
    match creds.result
    case Err(e) => Run(creds.events, creds.state, Err(e))
    case Ok(k) =>
      var token := creds.state.value.token;
      match w.sign(SessionServerBody(apiKey), k)
      case None => Run(creds.events, creds.state, Err(CryptoError))
      case Some(signature) =>
        var session := SessionServerRequest(token, signature, apiKey);
        Run(creds.events + [Sent(session)], creds.state, SessionFrom(w.respond(session), k))
  }

  /** The configuration the client holds: the API key and, after an installation, the state. */
  class BunqConfig {
    var apiKey: string
    var state: Option<AppState>

    constructor (apiKey: string, state: Option<AppState>)
      ensures this.apiKey == apiKey && this.state == state
    {
      this.apiKey := apiKey;
      this.state := state;
    }

    function Record(): ConfigRecord
      reads this
    {
      ConfigRecord(apiKey, state)
    }

    /** Runs the handshake; the requests, the saves, the new state and the result are those of `InstallRun`. */
    method Install(env: Environment) returns (r: Result<Session>)
      modifies this, env
      ensures env.trace == old(env.trace) + InstallRun(old(apiKey), old(state), env.world).events
      ensures state == InstallRun(old(apiKey), old(state), env.world).state
      ensures r == InstallRun(old(apiKey), old(state), env.world).result
      ensures apiKey == old(apiKey)
    {
      var keypair: KeyPair;
      if state.Some? {
        var parsed := env.world.parsePem(state.value.pemPrivate);
        if parsed.None? {
          return Err(CryptoError);
        }
        keypair := parsed.value;
      } else {
        var generated := env.world.generatedKey;
        if generated.None? {
          return Err(CryptoError);
        }
        var installReply := env.Send(InstallationRequest(generated.value.publicPem));
        if installReply.None? {
          return Err(Transport);
        }
        var installation := DeserializeFlattenedResponse(installReply.value.json, DecodeInstallationResponse);
        if installation.Err? {
          return Err(installation.error);
        }
        var token := installation.value.response.token.token;
        var deviceReply := env.Send(DeviceServerRequest(token, apiKey));
        if deviceReply.None? {
          return Err(Transport);
        }
        state := Some(AppState(token, generated.value.privatePem));
        var saved := env.Save(Record());
        if !saved {
          return Err(PersistenceError);
        }
        keypair := generated.value;
      }
      var token := state.value.token;
      var signature := env.world.sign(SessionServerBody(apiKey), keypair);
      if signature.None? {
        return Err(CryptoError);
      }
      var sessionReply := env.Send(SessionServerRequest(token, signature.value, apiKey));
      if sessionReply.None? {
        return Err(Transport);
      }
      var session := DeserializeFlattenedResponse(sessionReply.value.json, DecodeSessionServerResponse);
      if session.Err? {
        return Err(session.error);
      }
      r := Ok(Session(session.value.response.token.token, keypair, session.value.response.userPerson.id));
    }
  }

  // ---------------------------------------------------------------------------
  // Properties of a run
  // ---------------------------------------------------------------------------

  /**
    With a saved state nothing is installed, registered or saved: the state is
    kept, the saved private key is the one used, and at most one request goes
    out, the session request authenticated by the saved token and signed with
    the saved key. It goes out exactly when the key parses and signing succeeds.
  */
  lemma ReuseSkipsInstallation(apiKey: string, s: AppState, w: World)
    ensures InstallRun(apiKey, Some(s), w).state == Some(s)
    ensures |InstallRun(apiKey, Some(s), w).events| <= 1
    ensures forall e :: e in InstallRun(apiKey, Some(s), w).events ==>
              e.Sent? && e.request.url == SESSION_SERVER_URL && e.request.authentication == Some(s.token)
    ensures |InstallRun(apiKey, Some(s), w).events| == 1 <==>
              w.parsePem(s.pemPrivate).Some? && w.sign(SessionServerBody(apiKey), w.parsePem(s.pemPrivate).value).Some?
    ensures InstallRun(apiKey, Some(s), w).result.Ok? ==>
              InstallRun(apiKey, Some(s), w).result.value.keypair == w.parsePem(s.pemPrivate).value
    ensures w.parsePem(s.pemPrivate).Some? && w.sign(SessionServerBody(apiKey), w.parsePem(s.pemPrivate).value).Some? ==>
              InstallRun(apiKey, Some(s), w).events ==
                [Sent(SessionServerRequest(s.token, w.sign(SessionServerBody(apiKey), w.parsePem(s.pemPrivate).value).value, apiKey))]
  {
  }

  /**
    A fresh run in which every step succeeds, in order: installation with the
    new public key, device registration under the installation token, saving
    the new state, then the session request under the same token, signed over
    its body with the new key. The session is the one in the last reply.
  */
  lemma FreshRun(apiKey: string, w: World, k: KeyPair, token: string, signature: string)
    requires w.generatedKey == Some(k)
    requires InstallationToken(w.respond(InstallationRequest(k.publicPem))) == Ok(token)
    requires w.respond(DeviceServerRequest(token, apiKey)).Some?
    requires w.store(ConfigRecord(apiKey, Some(AppState(token, k.privatePem))))
    requires w.sign(SessionServerBody(apiKey), k) == Some(signature)
    ensures InstallRun(apiKey, None, w).state == Some(AppState(token, k.privatePem))
    ensures InstallRun(apiKey, None, w).events ==
              [Sent(InstallationRequest(k.publicPem)),
               Sent(DeviceServerRequest(token, apiKey)),
               Saved(ConfigRecord(apiKey, Some(AppState(token, k.privatePem)))),
               Sent(SessionServerRequest(token, signature, apiKey))]
    ensures InstallRun(apiKey, None, w).result == SessionFrom(w.respond(SessionServerRequest(token, signature, apiKey)), k)
  {
  }

  /** A fresh run succeeds only when every step of `FreshRun` does. */
  lemma FreshSuccessNeedsEveryStep(apiKey: string, w: World)
    ensures InstallRun(apiKey, None, w).result.Ok? ==>
              w.generatedKey.Some? &&
              InstallationToken(w.respond(InstallationRequest(w.generatedKey.value.publicPem))).Ok? &&
              var token := InstallationToken(w.respond(InstallationRequest(w.generatedKey.value.publicPem))).value;
              var installed := ConfigRecord(apiKey, Some(AppState(token, w.generatedKey.value.privatePem)));
              w.respond(DeviceServerRequest(token, apiKey)).Some? &&
              w.store(installed) &&
              w.sign(SessionServerBody(apiKey), w.generatedKey.value).Some?
  {
  }

  /**
    In every run the state is saved before the session request, the session
    request is the last event, and it carries the token of the state the
    run leaves.
  */
  lemma SessionRequestComesLast(apiKey: string, state: Option<AppState>, w: World)
    ensures forall i :: (0 <= i < |InstallRun(apiKey, state, w).events| &&
                         InstallRun(apiKey, state, w).events[i].Sent? &&
                         InstallRun(apiKey, state, w).events[i].request.url == SESSION_SERVER_URL) ==>
                i == |InstallRun(apiKey, state, w).events| - 1 &&
                InstallRun(apiKey, state, w).state.Some? &&
                InstallRun(apiKey, state, w).events[i].request.authentication == Some(InstallRun(apiKey, state, w).state.value.token)
    ensures InstallRun(apiKey, state, w).result.Ok? ==>
              InstallRun(apiKey, state, w).state.Some? &&
              |InstallRun(apiKey, state, w).events| > 0 &&
              InstallRun(apiKey, state, w).events[|InstallRun(apiKey, state, w).events| - 1].Sent? &&
              InstallRun(apiKey, state, w).events[|InstallRun(apiKey, state, w).events| - 1].request.url == SESSION_SERVER_URL
  {
    var run := InstallRun(apiKey, state, w);
    var creds := Credentials(apiKey, state, w);
    assert forall i :: 0 <= i < |creds.events| && creds.events[i].Sent? ==>
             creds.events[i].request.url != SESSION_SERVER_URL;
  }

  /**
    The whole handshake against a server that answers installation with token
    "T1" and the session request with token "S1" for user 42.
  */
  lemma FreshScenario(apiKey: string, w: World, k: KeyPair, signature: string)
    requires w.generatedKey == Some(k)
    requires w.respond(InstallationRequest(k.publicPem)) ==
               Some(Reply(Some(EncodeRawResponse(RawResponse(FlattenInstallationResponse(InstallationResponse(Token("T1"))), None)))))
    requires w.respond(DeviceServerRequest("T1", apiKey)).Some?
    requires w.store(ConfigRecord(apiKey, Some(AppState("T1", k.privatePem))))
    requires w.sign(SessionServerBody(apiKey), k) == Some(signature)
    requires w.respond(SessionServerRequest("T1", signature, apiKey)) ==
               Some(Reply(Some(EncodeRawResponse(RawResponse(
                 FlattenSessionServerResponse(SessionServerResponse(Token("S1"), UserPerson(42))), None)))))
    ensures InstallRun(apiKey, None, w) ==
              Run([Sent(InstallationRequest(k.publicPem)),
                   Sent(DeviceServerRequest("T1", apiKey)),
                   Saved(ConfigRecord(apiKey, Some(AppState("T1", k.privatePem)))),
                   Sent(SessionServerRequest("T1", signature, apiKey))],
                  Some(AppState("T1", k.privatePem)),
                  Ok(Session("S1", k, 42)))
  {
    var installRaw := RawResponse(FlattenInstallationResponse(InstallationResponse(Token("T1"))), None);
    RawResponseRoundTrip(installRaw);
    InstallationResponseRoundTrip(InstallationResponse(Token("T1")), None);
    var sessionRaw := RawResponse(FlattenSessionServerResponse(SessionServerResponse(Token("S1"), UserPerson(42))), None);
    RawResponseRoundTrip(sessionRaw);
    SessionServerResponseRoundTrip(SessionServerResponse(Token("S1"), UserPerson(42)), None);
    FreshRun(apiKey, w, k, "T1", signature);
  }
}
