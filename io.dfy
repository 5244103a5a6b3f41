/**
  Everything the client does not compute itself: the API server, the
  configuration store, key generation, PEM parsing and signing. They are fixed
  oracles of a `World`; an `Environment` answers from them and keeps a ghost
  trace of every request it was sent and every configuration it was asked to
  save, in order.
*/
module Io {
  import opened Wrappers
  import opened JsonValues

  /** The one host every request goes to. */
  const BASE: string := "https://api.bunq.com"

  /** An RSA key pair, seen through its PEM encodings. */
  datatype KeyPair = KeyPair(privatePem: string, publicPem: string)

  /** What an installation leaves behind: the installation token and the private key. */
  datatype AppState = AppState(token: string, pemPrivate: string)

  /** The persisted configuration: the API key and, once installed, the state. */
  datatype ConfigRecord = ConfigRecord(apiKey: string, state: Option<AppState>)

  datatype Verb = Get | Post

  /** The request bodies; each is sent as its JSON serialization. */
  datatype Body =
    | NoBody
    | InstallationBody(clientPublicKey: string)
    | DeviceServerBody(description: string, secret: string, permittedIps: seq<string>)
    | SessionServerBody(secret: string)

  /**
    A request: `authentication` is the X-Bunq-Client-Authentication header,
    `signature` the X-Bunq-Client-Signature header.
  */
  datatype Request = Request(verb: Verb, url: string, authentication: Option<string>, signature: Option<string>, body: Body)

  /** A reply body that was read completely; `json` is `None` when the text is not JSON. */
  datatype Reply = Reply(json: Option<Json>)

  datatype Event = Sent(request: Request) | Saved(config: ConfigRecord)

  /**
    The oracles. `respond` gives `None` when connecting, sending or reading the
    body fails; `store` says whether saving succeeds; `generatedKey` is the key
    the random generator yields (`None` when generation or PEM encoding fails);
    `sign` signs the serialized body.
  */
  datatype World = World(
    respond: Request -> Option<Reply>,
    store: ConfigRecord -> bool,
    generatedKey: Option<KeyPair>,
    parsePem: string -> Option<KeyPair>,
    sign: (Body, KeyPair) -> Option<string>)

  class Environment {
    const world: World
    ghost var trace: seq<Event>

    constructor (world: World)
      ensures this.world == world && trace == []
    {
      this.world := world;
      trace := [];
    }

    /** Sends one request and waits for its whole reply. */
    method Send(request: Request) returns (reply: Option<Reply>)
      modifies this
      ensures trace == old(trace) + [Sent(request)]
      ensures reply == world.respond(request)
    {
      reply := world.respond(request);
      trace := trace + [Sent(request)];
    }

    /** Persists the configuration under the application's name. */
    method Save(config: ConfigRecord) returns (ok: bool)
      modifies this
      ensures trace == old(trace) + [Saved(config)]
      ensures ok == world.store(config)
    {
      ok := world.store(config);
      trace := trace + [Saved(config)];
    }
  }
}
