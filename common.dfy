/**
  Values shared by the whole model: optional values, request fields as the
  controllers see them, outcomes of external commands, and the few PHP string
  conventions the controllers rely on.
*/
module Common {

  datatype Option<T> = None | Some(value: T)

  /**
    One field of a JSON request body as a controller receives it: left out of
    the body, sent as an explicit `null`, or given a value. Laravel's
    `$request->only([...])` passes the first kind over and keeps the other two,
    while `$request->field ?? default` treats the first two alike.
  */
  datatype Field<T> = Absent | Null | Given(value: T)
  {
    /** PHP's `$request->field ?? fallback`. */
    function Or(fallback: T): T
    {
      if Given? then value else fallback
    }

    /** The value a nullable column receives from `$request->field`. */
    function ToOption(): Option<T>
    {
      if Given? then Some(value) else None
    }

    /** The new value of a non-null column after an update with `$request->only([...])`. */
    function Assign(current: T): T
    {
      if Given? then value else current
    }

    /** The new value of a nullable column after an update with `$request->only([...])`. */
    function AssignNullable(current: Option<T>): Option<T>
    {
      match this
      case Absent => current
      case Null => None
      case Given(v) => Some(v)
    }
  }

  /** Exit status and captured output lines of one external command. */
  datatype CmdResult = CmdResult(exitCode: int, output: seq<string>)
  {
    predicate Succeeded()
    {
      exitCode == 0
    }
  }

  /** PHP truthiness of a `?string`: `null`, `""` and `"0"` are false, every other string is true. */
  predicate Truthy(s: Option<string>)
  {
    s.Some? && s.value != "" && s.value != "0"
  }

  /** PHP's `implode(sep, parts)`. */
  function Implode(sep: string, parts: seq<string>): string
  {
    if |parts| == 0 then ""
    else if |parts| == 1 then parts[0]
    else parts[0] + sep + Implode(sep, parts[1..])
  }

  /**
    A request field a validation rule can reject; the error body names it by
    its JSON key: `username`, `ssh_enabled`, `ftp_enabled`, `domain`,
    `system_user_id`, `php_version`, `ssl_enabled`, `status`, `email`.
  */
  datatype Input = Username | SshEnabled | FtpEnabled | Domain | SystemUserId | PhpVersion | SslEnabled | Status | Email

  /** The JSON body of a response. */
  datatype Body =
    | ValidationErrors(fields: set<Input>)
    | Error(message: string)
    | ErrorWithOutput(message: string, output: seq<string>)
    | Message(text: string)
    | SystemUserRecord(systemUserId: nat)
    | VhostRecord(vhostId: nat)
    | CertificateIssued(message: string, vhostId: nat)
    | NotFound
    | UncaughtException

  datatype Response = Response(status: nat, body: Body)

  /** The error message of every endpoint whose `nginx -t` fails. */
  const NginxTestFailed := "Nginx configuration test failed"
}
