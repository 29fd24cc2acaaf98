/**
 A single named configuration of the reticule client (`reticuleConfig`), the
 flags `config create reticule` turns into a fresh profile, and the sparse patch
 `config update reticule` applies to an existing one.
 */
module ProfileData {
  import opened Wrappers

  /** The exchange-issued credentials, held by value by exactly one profile. */
  datatype Auth = Auth(key: string, passphrase: string, secret: string)

  /** One profile: endpoints, credentials and the server-mode listener settings. */
  datatype Profile = Profile(
    baseURL: string,
    feedURL: string,
    auth: Auth,
    serverIP: string,
    serverPort: int,
    serverSecret: string)

  /** The eight leaf fields of a profile, used to state per-field properties. */
  datatype Field = BaseURL | FeedURL | Key | Passphrase | Secret | ServerIP | ServerPort | ServerSecret

  /** The value stored in one field. */
  datatype Value = Text(s: string) | Number(n: int)

  /** Reads one field of a profile. */
  function Get(p: Profile, f: Field): Value
  {
    match f
    case BaseURL => Text(p.baseURL)
    case FeedURL => Text(p.feedURL)
    case Key => Text(p.auth.key)
    case Passphrase => Text(p.auth.passphrase)
    case Secret => Text(p.auth.secret)
    case ServerIP => Text(p.serverIP)
    case ServerPort => Number(p.serverPort)
    case ServerSecret => Text(p.serverSecret)
  }

  /** Two profiles that agree on every field are the same profile. */
  lemma FieldsDetermineProfile(p: Profile, q: Profile)
    requires forall f: Field :: Get(p, f) == Get(q, f)
    ensures p == q
  {
    assert Get(p, BaseURL) == Get(q, BaseURL);
    assert Get(p, FeedURL) == Get(q, FeedURL);
    assert Get(p, Key) == Get(q, Key);
    assert Get(p, Passphrase) == Get(q, Passphrase);
    assert Get(p, Secret) == Get(q, Secret);
    assert Get(p, ServerIP) == Get(q, ServerIP);
    assert Get(p, ServerPort) == Get(q, ServerPort);
    assert Get(p, ServerSecret) == Get(q, ServerSecret);
  }

  /**
   The flags of `config create reticule`, after the command-line parser has
   filled in its defaults and rendered both URLs as strings.
   */
  datatype CreateRequest = CreateRequest(
    name: string,
    baseURL: string,
    feedURL: string,
    key: string,
    passphrase: string,
    secret: string,
    use: bool,
    serverPort: int,
    bindAddress: string,
    serverAuth: string)

  /** Which create flag feeds which profile field. */
  function Requested(req: CreateRequest, f: Field): Value
  {
    match f
    case BaseURL => Text(req.baseURL)
    case FeedURL => Text(req.feedURL)
    case Key => Text(req.key)
    case Passphrase => Text(req.passphrase)
    case Secret => Text(req.secret)
    case ServerIP => Text(req.bindAddress)
    case ServerPort => Number(req.serverPort)
    case ServerSecret => Text(req.serverAuth)
  }

  /** The profile Create stores: every field is taken from its flag. */
  function NewProfile(req: CreateRequest): (p: Profile)
    ensures forall f: Field :: Get(p, f) == Requested(req, f)
  {
    Profile(
      req.baseURL,
      req.feedURL,
      Auth(req.key, req.passphrase, req.secret),
      req.bindAddress,
      req.serverPort,
      req.serverAuth)
  }

  /**
   The flags of `config update reticule`. A URL flag is absent when `None`; a
   string flag when empty; the port when zero. `rename` empty means no rename.
   */
  datatype UpdateRequest = UpdateRequest(
    name: string,
    baseURL: Option<string>,
    feedURL: Option<string>,
    key: string,
    passphrase: string,
    rename: string,
    secret: string,
    use: bool,
    serverPort: int,
    bindAddress: string,
    serverAuth: string)

  /** A string flag counts as supplied when it is non-empty. */
  function SuppliedText(flag: string): Option<Value>
  {
    if flag == "" then None else Some(Text(flag))
  }

  /** The new value a patch supplies for a field, or `None` when it leaves it alone. */
  function Supplied(req: UpdateRequest, f: Field): Option<Value>
  {
    match f
    case BaseURL => if req.baseURL.Some? then Some(Text(req.baseURL.value)) else None
    case FeedURL => if req.feedURL.Some? then Some(Text(req.feedURL.value)) else None
    case Key => SuppliedText(req.key)
    case Passphrase => SuppliedText(req.passphrase)
    case Secret => SuppliedText(req.secret)
    case ServerIP => SuppliedText(req.bindAddress)
    case ServerPort => if req.serverPort == 0 then None else Some(Number(req.serverPort))
    case ServerSecret => SuppliedText(req.serverAuth)
  }

  /** The value a field has after the patch: the supplied one, or the old one. */
  function Patched(p: Profile, req: UpdateRequest, f: Field): Value
  {
    match Supplied(req, f)
    case Some(v) => v
    case None => Get(p, f)
  }

  /** Keeps `prior` unless the string flag was given. */
  function Pick(flag: string, prior: string): string
  {
    if flag != "" then flag else prior
  }

  /**
   Applies the field patch of an update to one profile: each field takes the
   supplied value when its flag was given and keeps its old value otherwise.
   */
  function ApplyPatch(p: Profile, req: UpdateRequest): (r: Profile)
    ensures forall f: Field :: Get(r, f) == Patched(p, req, f)
  {
    var baseURL := if req.baseURL.Some? then req.baseURL.value else p.baseURL;
    var feedURL := if req.feedURL.Some? then req.feedURL.value else p.feedURL;
    var auth := Auth(
      Pick(req.key, p.auth.key),
      Pick(req.passphrase, p.auth.passphrase),
      Pick(req.secret, p.auth.secret));
    var port := if req.serverPort != 0 then req.serverPort else p.serverPort;
    Profile(
      baseURL,
      feedURL,
      auth,
      Pick(req.bindAddress, p.serverIP),
      port,
      Pick(req.serverAuth, p.serverSecret))
  }

  /** The fields an update request supplies. */
  function Touched(req: UpdateRequest): set<Field>
  {
    set f: Field | Supplied(req, f).Some?
  }

  /** The fields on which two profiles differ. */
  function Differs(p: Profile, q: Profile): set<Field>
  {
    set f: Field | Get(p, f) != Get(q, f)
  }
}
