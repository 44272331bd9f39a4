/** The SSH helpers behind the tools (src/ssh-tools.ts): the database
    command lines, the stdout-only result of a remote command, and the
    session's connect/disconnect guard. */
module SshTools {
  import opened Wrappers
  import opened Text

  /** The command line `queryDatabase` runs for a database type. A `port` is
      written in decimal. */
  function QueryCommand(dbType: string, host: string, port: int, database: string,
                        username: string, password: string, query: string): (r: Result<string, string>)
    ensures r.Failure? <==> dbType != "mysql" && dbType != "postgresql"
    ensures r.Failure? ==> r.error == "Unsupported database type"
    ensures dbType == "mysql" ==>
              && r.Success?
              && StartsWith(r.value, "mysql -h " + host + " -P " + IntToString(port) + " -u " + username + " -p" + password)
              && EndsWith(r.value, " " + database + " -e \"" + query + "\"")
    ensures dbType == "postgresql" ==>
              && r.Success?
              && StartsWith(r.value, "PGPASSWORD='" + password + "' psql -h " + host + " -p " + IntToString(port))
              && EndsWith(r.value, " -U " + username + " -d " + database + " -c \"" + query + "\"")
  {
    var p := IntToString(port);
    if dbType == "mysql" then
      var head := "mysql -h " + host + " -P " + p + " -u " + username + " -p" + password;
      var tail := " " + database + " -e \"" + query + "\"";
      ConcatAffixes(head, tail);
      Success(head + tail)
    else if dbType == "postgresql" then
      var head := "PGPASSWORD='" + password + "' psql -h " + host + " -p " + p;
      var tail := " -U " + username + " -d " + database + " -c \"" + query + "\"";
      ConcatAffixes(head, tail);
      Success(head + tail)
    else
      Failure("Unsupported database type")
  }

  predicate EndsWith(s: string, suffix: string) {
    |suffix| <= |s| && s[|s| - |suffix|..] == suffix
  }

  lemma ConcatAffixes(head: string, tail: string)
    ensures StartsWith(head + tail, head) && EndsWith(head + tail, tail)
  {
    assert (head + tail)[..|head|] == head;
    assert (head + tail)[|head|..] == tail;
  }

  /** The two command lines never coincide: the database type can be read
      back from the first word of a command. */
  lemma CommandNamesClient(dbType: string, host: string, port: int, database: string,
                           username: string, password: string, query: string)
    requires QueryCommand(dbType, host, port, database, username, password, query).Success?
    ensures var c := QueryCommand(dbType, host, port, database, username, password, query).value;
      && (dbType == "mysql" <==> StartsWith(c, "mysql "))
      && (dbType == "postgresql" <==> StartsWith(c, "PGPASSWORD='"))
  {
    var c := QueryCommand(dbType, host, port, database, username, password, query).value;
    if dbType == "mysql" {
      assert c[..6] == ("mysql -h " + host)[..6];
      assert c[0] == 'm';
    } else {
      assert c[..12] == ("PGPASSWORD='" + password)[..12];
      assert c[0] == 'P';
    }
  }

  /** What `ssh.execCommand` reports: the command's stdout and stderr, or the
      error it threw. */
  datatype ExecOutcome = Completed(stdout: string, stderr: string) | ExecFailed(error: string)

  /** The lines `executeCommand` logs for an outcome: a non-empty stderr,
      or the execution error. */
  function ExecLog(outcome: ExecOutcome): seq<string> {
    match outcome
    case Completed(_, err) => if err != "" then ["Command stderr: " + err] else []
    case ExecFailed(e) => ["Command execution error: " + e]
  }

  /** `SSHTools` with its `NodeSSH` session. */
  class SshSession {
    var connected: bool
    /** Every command handed to `execCommand`, in order. */
    var executed: seq<string>
    /** How many times the session was disposed. */
    var disposals: nat
    /** What the helpers wrote with `console.error`. */
    var errLog: seq<string>

    constructor ()
      ensures !connected && executed == [] && disposals == 0 && errLog == []
    {
      connected, executed, disposals, errLog := false, [], 0, [];
    }

    /** `connectToVM`: the instance's first external address, then an SSH
        connection to it. `apiError` is what fetching the instance threw (the
        auth client or the Compute API call), if anything; `natIp` is the
        address the API reported; `sshError` what `ssh.connect` threw, if
        anything. A missing or empty address is rejected, `""` being falsy. */
    method ConnectToVm(apiError: Option<string>, natIp: Option<string>, sshError: Option<string>)
      returns (r: Result<string, string>)
      modifies this`connected, this`errLog
      ensures apiError.Some? ==> r == Failure(apiError.value) && connected == old(connected)
      ensures apiError.None? && (natIp.None? || natIp.value == "") ==>
        r == Failure("No external IP found for instance") && connected == old(connected)
      ensures apiError.None? && natIp.Some? && natIp.value != "" && sshError.Some? ==>
        r == Failure(sshError.value) && connected == old(connected)
      ensures apiError.None? && natIp.Some? && natIp.value != "" && sshError.None? ==>
        r == Success(natIp.value) && connected
      ensures r.Failure? ==> errLog == old(errLog) + ["SSH connection error: " + r.error]
      ensures r.Success? ==> errLog == old(errLog) && r.value != ""
    {
      if apiError.Some? {
        r := Failure(apiError.value);
      } else if natIp.None? || natIp.value == "" {
        r := Failure("No external IP found for instance");
      } else if sshError.Some? {
        r := Failure(sshError.value);
      } else {
        connected := true;
        return Success(natIp.value);
      }
      errLog := errLog + ["SSH connection error: " + r.error];
    }

    /** `executeCommand`: runs the command and returns its stdout only; a
        non-empty stderr goes to the log and is never returned. */
    method ExecuteCommand(command: string, outcome: ExecOutcome) returns (r: Result<string, string>)
      modifies this`executed, this`errLog
      ensures executed == old(executed) + [command]
      ensures outcome.Completed? ==> r == Success(outcome.stdout)
      ensures outcome.Completed? && outcome.stderr != "" ==> errLog == old(errLog) + ["Command stderr: " + outcome.stderr]
      ensures outcome.Completed? && outcome.stderr == "" ==> errLog == old(errLog)
      ensures outcome.ExecFailed? ==>
                r == Failure(outcome.error) && errLog == old(errLog) + ["Command execution error: " + outcome.error]
    {
      executed := executed + [command];
      match outcome
      case Completed(out, err) =>
        if err != "" {
          errLog := errLog + ["Command stderr: " + err];
        }
        r := Success(out);
      case ExecFailed(e) =>
        errLog := errLog + ["Command execution error: " + e];
        r := Failure(e);
    }

    /** `queryDatabase`: an unsupported type fails before anything runs;
        otherwise the answer is exactly what `executeCommand` returns for the
        built command. */
    method QueryDatabase(dbType: string, host: string, port: int, database: string, username: string,
                         password: string, query: string, outcome: ExecOutcome) returns (r: Result<string, string>)
      modifies this`executed, this`errLog
      ensures var cmd := QueryCommand(dbType, host, port, database, username, password, query);
        && (cmd.Failure? ==> r == Failure("Unsupported database type")
                             && executed == old(executed) && errLog == old(errLog))
        && (cmd.Success? ==> executed == old(executed) + [cmd.value]
                             && r == (if outcome.Completed? then Success(outcome.stdout) else Failure(outcome.error))
                             && errLog == old(errLog) + ExecLog(outcome))
    {
      var cmd := QueryCommand(dbType, host, port, database, username, password, query);
      if cmd.Failure? {
        return Failure(cmd.error);
      }
      r := ExecuteCommand(cmd.value, outcome);
    }

    /** `disconnect`: disposes the session only when it is connected. */
    method Disconnect()
      modifies this`connected, this`disposals
      ensures !connected
      ensures old(connected) ==> disposals == old(disposals) + 1
      ensures !old(connected) ==> disposals == old(disposals)
    {
      if connected {
        disposals := disposals + 1;
        connected := false;
      }
    }
  }
}
