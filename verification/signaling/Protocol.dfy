/** The message contract of the signaling endpoint, and the settings it runs with. */
module Protocol {

  import Octets

  datatype Option<+T> = None | Some(value: T)

  datatype Role = Device | Phone

  function Opposite(role: Role): Role
  {
    if role.Device? then Phone else Device
  }

  type byte = Octets.byte

  datatype Credential = Credential(url: string, user: string, pass: string)

  /** A frame as it reaches a client. `Raw` is an offer, an answer or a candidate passed on
      byte for byte. */
  datatype Frame =
    | Joined
    | Ready(initiator: bool, stun: string, turn: Option<Credential>)
    | Bye
    | RemoteJoined(session: string)
    | Raw(bytes: seq<byte>)

  datatype JoinMessage = JoinMessage(role: string, session: string, imei: string)

  datatype JoinError = EmptySession | UnknownRole(role: string)

  datatype Result<+T> = Ok(value: T) | Err(error: JoinError)

  /** Settings after `New` has replaced a non-positive send buffer by the default, hence `pos`.
      `lower` stands for strings.ToLower. */
  datatype Config = Config(sendBuffer: pos, noReceiverTimeout: int,
                           stunURL: string, turnURL: string,
                           lower: string -> string)

  type pos = n: int | 0 < n witness 1

  function ParseRole(role: string): Option<Role>
  {
    if role == "device" then Some(Device) else if role == "phone" then Some(Phone) else None
  }

  function RoleName(role: Role): (name: string)
    ensures ParseRole(name) == Some(role)
  {
    if role.Device? then "device" else "phone"
  }

  /** What `join` checks before it takes the lock. */
  function CheckJoin(m: JoinMessage): Option<JoinError>
  {
    if m.session == "" then Some(EmptySession)
    else if ParseRole(m.role).None? then Some(UnknownRole(m.role))
    else None
  }

  function CredentialFor(cfg: Config, token: string): Option<Credential>
  {
    if cfg.turnURL == "" then None else Some(Credential(cfg.turnURL, token, token))
  }

  function ReadyFrame(cfg: Config, token: string, initiator: bool): Frame
  {
    Ready(initiator, cfg.stunURL, CredentialFor(cfg, token))
  }
}
