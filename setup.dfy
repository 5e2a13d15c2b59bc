/**
 * The interactive setup script: it asks for the Telegram target, then for
 * servers one after another, then for the polling interval, and assembles
 * the configuration.
 *
 * The console is a parameter: `answers` are the lines typed, in order, and
 * a position says how many have been read. Reading past the last answer is
 * `input()` hitting end of input.
 */
module Setup {
  import opened Outcomes
  import opened Text
  import opened Settings

  /** Why the script ends without a configuration. */
  datatype Stop =
    | EndOfInput               // `input()` raised EOFError
    | MissingBotToken          // exit(1): empty bot token
    | MissingChatId            // exit(1): empty chat id
    | BadPort(text: string)    // `int(port)` raised ValueError
    | Cancelled                // exit(0): the summary was not confirmed

  /** A value read from the answers, and the position of the first answer not read. */
  datatype Parsed<T> = Parsed(value: T, next: nat)

  /** The port used when the port answer is blank. */
  const DefaultPort: string := "22"

  /** The interval used when the interval answer is not a plain number. */
  const DefaultInterval: nat := 15

  /** A yes to "Add another server?" or "Proceed?": the answer stripped and lower-cased is "y". */
  predicate IsYes(answer: string) {
    Lower(Strip(answer)) == "y"
  }

  // ---------------------------------------------------------------- telegram

  /** `get_telegram_config`: a non-empty bot token, then a non-empty chat id. */
  function GetTelegramConfig(answers: seq<string>, pos: nat): (r: Result<Parsed<Telegram>, Stop>)
    ensures r.Ok? ==> r.value.next == pos + 2 && r.value.value.botToken != [] && r.value.value.chatId != []
  {
    if pos >= |answers| then Err(EndOfInput)
    else if Strip(answers[pos]) == [] then Err(MissingBotToken)
    else if pos + 1 >= |answers| then Err(EndOfInput)
    else if Strip(answers[pos + 1]) == [] then Err(MissingChatId)
    else Ok(Parsed(Telegram(Strip(answers[pos]), Strip(answers[pos + 1])), pos + 2))
  }

  /**
   * The telegram part is read exactly when both answers are there and neither
   * strips to nothing; it then holds the two stripped answers. An empty token
   * stops the script whatever follows.
   */
  lemma TelegramOutcome(answers: seq<string>, pos: nat)
    ensures GetTelegramConfig(answers, pos).Ok? <==>
            pos + 2 <= |answers| && Strip(answers[pos]) != [] && Strip(answers[pos + 1]) != []
    ensures GetTelegramConfig(answers, pos).Ok? ==>
            GetTelegramConfig(answers, pos).value ==
            Parsed(Telegram(Strip(answers[pos]), Strip(answers[pos + 1])), pos + 2)
    ensures pos < |answers| && Strip(answers[pos]) == [] ==> GetTelegramConfig(answers, pos) == Err(MissingBotToken)
    ensures pos + 1 < |answers| && Strip(answers[pos]) != [] && Strip(answers[pos + 1]) == [] ==>
            GetTelegramConfig(answers, pos) == Err(MissingChatId)
  {
  }

  // ---------------------------------------------------------------- servers

  /** The five answers of one server round, stripped, with a blank port replaced by "22". */
  datatype Entry = Entry(name: string, host: string, port: string, username: string, password: string)

  function EntryAt(answers: seq<string>, pos: nat): (e: Entry)
    requires pos + 5 <= |answers|
    ensures e.port != []
    ensures Strip(answers[pos + 2]) != [] ==> e.port == Strip(answers[pos + 2])
  {
    var port := Strip(answers[pos + 2]);
    Entry(Strip(answers[pos]), Strip(answers[pos + 1]), if port == [] then DefaultPort else port,
          Strip(answers[pos + 3]), Strip(answers[pos + 4]))
  }

  /** A round whose required answers are all given. */
  predicate Filled(e: Entry) {
    AllGiven(e.name, e.host, e.username, e.password)
  }

  /**
   * The server rounds from position `pos` on, with `servers` already accepted:
   * an incomplete round is dropped and asked again; a complete one is appended,
   * and the rounds end at the first answer to "Add another server?" that is not "y".
   */
  function CollectServers(answers: seq<string>, pos: nat, servers: seq<Server>): (r: Result<Parsed<seq<Server>>, Stop>)
    decreases |answers| - pos
  {
    if pos + 5 > |answers| then Err(EndOfInput)
    else
      var e := EntryAt(answers, pos);
      if !Filled(e) then CollectServers(answers, pos + 5, servers)
      else
        match ParseInt(e.port)
        case None => Err(BadPort(e.port))
        case Some(port) =>
          var more := servers + [Server(e.name, e.host, port, e.username, e.password)];
          if pos + 5 >= |answers| then Err(EndOfInput)
          else if !IsYes(answers[pos + 5]) then Ok(Parsed(more, pos + 6))
          else CollectServers(answers, pos + 6, more)
  }

  /**
   * A successful run of the rounds keeps the servers accepted before, adds at
   * least one server, and adds only complete ones.
   */
  lemma {:induction false} CollectedServers(answers: seq<string>, pos: nat, servers: seq<Server>)
    requires CollectServers(answers, pos, servers).Ok?
    ensures var r := CollectServers(answers, pos, servers).value.value;
            && |r| > |servers|
            && r[..|servers|] == servers
            && forall k :: |servers| <= k < |r| ==> Complete(r[k])
    decreases |answers| - pos
  {
    var e := EntryAt(answers, pos);
    if !Filled(e) {
      IncompleteRoundSkipped(answers, pos, servers);
      CollectedServers(answers, pos + 5, servers);
    } else {
      var server := Server(e.name, e.host, ParseInt(e.port).value, e.username, e.password);
      var more := servers + [server];
      assert Complete(server);
      AcceptedRound(answers, pos, servers);
      if IsYes(answers[pos + 5]) {
        CollectedServers(answers, pos + 6, more);
        ExtensionKept(CollectServers(answers, pos + 6, more).value.value, servers, server);
      } else {
        assert CollectServers(answers, pos, servers).value.value == more;
        OneAdded(servers, server);
      }
    }
  }

  /** Appending one complete server keeps the servers before it and adds only a complete one. */
  lemma OneAdded(servers: seq<Server>, server: Server)
    requires Complete(server)
    ensures (servers + [server])[..|servers|] == servers
    ensures forall k :: |servers| <= k < |servers + [server]| ==> Complete((servers + [server])[k])
  {
    assert (servers + [server])[..|servers|] == servers;
  }

  /** Servers that extend `servers + [server]` with complete ones extend `servers` with complete ones. */
  lemma ExtensionKept(r: seq<Server>, servers: seq<Server>, server: Server)
    requires Complete(server)
    requires |r| > |servers| + 1 && r[..|servers| + 1] == servers + [server]
    requires forall k :: |servers| + 1 <= k < |r| ==> Complete(r[k])
    ensures r[..|servers|] == servers
    ensures forall k :: |servers| <= k < |r| ==> Complete(r[k])
  {
    assert r[..|servers|] == r[..|servers| + 1][..|servers|];
    assert r[|servers|] == r[..|servers| + 1][|servers|] == server;
  }

  /** An incomplete round changes nothing: the same servers are asked for again. */
  lemma IncompleteRoundSkipped(answers: seq<string>, pos: nat, servers: seq<Server>)
    requires pos + 5 <= |answers| && !Filled(EntryAt(answers, pos))
    ensures CollectServers(answers, pos, servers) == CollectServers(answers, pos + 5, servers)
  {
  }

  /** A complete round is appended after the servers before it, in entry order. */
  lemma CompleteRoundAppended(answers: seq<string>, pos: nat, servers: seq<Server>)
    requires pos + 5 <= |answers| && Filled(EntryAt(answers, pos))
    requires CollectServers(answers, pos, servers).Ok?
    ensures var e, r := EntryAt(answers, pos), CollectServers(answers, pos, servers).value.value;
            && ParseInt(e.port).Some?
            && |r| > |servers|
            && r[|servers|] == Server(e.name, e.host, ParseInt(e.port).value, e.username, e.password)
  {
    var e := EntryAt(answers, pos);
    var more := servers + [Server(e.name, e.host, ParseInt(e.port).value, e.username, e.password)];
    if IsYes(answers[pos + 5]) {
      CollectedServers(answers, pos + 6, more);
      var r := CollectServers(answers, pos, servers).value.value;
      assert r[..|more|][|servers|] == r[|servers|];
    }
  }

  /** What follows a complete round with a numeric port: end of input, the last server, or the next round. */
  lemma AcceptedRound(answers: seq<string>, pos: nat, servers: seq<Server>)
    requires pos + 5 <= |answers| && Filled(EntryAt(answers, pos)) && ParseInt(EntryAt(answers, pos).port).Some?
    ensures var e := EntryAt(answers, pos);
            var more := servers + [Server(e.name, e.host, ParseInt(e.port).value, e.username, e.password)];
            && (pos + 5 == |answers| ==> CollectServers(answers, pos, servers) == Err(EndOfInput))
            && (pos + 5 < |answers| && !IsYes(answers[pos + 5]) ==>
                  CollectServers(answers, pos, servers) == Ok(Parsed(more, pos + 6)))
            && (pos + 5 < |answers| && IsYes(answers[pos + 5]) ==>
                  CollectServers(answers, pos, servers) == CollectServers(answers, pos + 6, more))
  {
  }

  /** A blank port answer is stored as port 22. */
  lemma BlankPortIs22(answers: seq<string>, pos: nat)
    requires pos + 5 <= |answers| && Strip(answers[pos + 2]) == []
    ensures EntryAt(answers, pos).port == "22" && ParseInt(EntryAt(answers, pos).port) == Some(22)
  {
    assert "22"[..1] == "2";
    assert DecimalValue("2") == 2 by { assert "2"[..0] == ""; }
  }

  /** A complete round whose port is not a number stops the script. */
  lemma NonNumericPortStops(answers: seq<string>, pos: nat, servers: seq<Server>)
    requires pos + 5 <= |answers| && Filled(EntryAt(answers, pos)) && ParseInt(EntryAt(answers, pos).port).None?
    ensures CollectServers(answers, pos, servers) == Err(BadPort(EntryAt(answers, pos).port))
  {
  }

  /**
   * `get_server_config`: the `while True` loop. At every loop head
   * `serverCount` is one more than the number of servers stored.
   */
  method GetServerConfig(answers: seq<string>, pos: nat) returns (r: Result<Parsed<seq<Server>>, Stop>)
    ensures r == CollectServers(answers, pos, [])
  {
    var servers: seq<Server> := [];
    var serverCount := 1;
    var p := pos;
    while true
      invariant serverCount == |servers| + 1
      invariant CollectServers(answers, p, servers) == CollectServers(answers, pos, [])
      decreases |answers| - p
    {
      if p + 5 > |answers| {
        return Err(EndOfInput);
      }
      var e := ReadRound(answers, p);
      var name, host, port, username, password := e.name, e.host, e.port, e.username, e.password;
      if name == [] || host == [] || username == [] || password == [] {
        IncompleteRoundSkipped(answers, p, servers);
        p := p + 5;
        continue;
      }
      var number := ParseInt(port);
      if number.None? {
        NonNumericPortStops(answers, p, servers);
        return Err(BadPort(port));
      }
      AcceptedRound(answers, p, servers);
      servers := servers + [Server(name, host, number.value, username, password)];
      if p + 5 >= |answers| {
        return Err(EndOfInput);
      }
      if !IsYes(answers[p + 5]) {
        return Ok(Parsed(servers, p + 6));
      }
      p := p + 6;
      serverCount := serverCount + 1;
    }
  }

  /** The five `input()` calls of one round, each answer stripped and a blank port replaced by "22". */
  method ReadRound(answers: seq<string>, p: nat) returns (e: Entry)
    requires p + 5 <= |answers|
    ensures e == EntryAt(answers, p)
  {
    var name := Strip(answers[p]);
    var host := Strip(answers[p + 1]);
    var port := Strip(answers[p + 2]);
    if port == [] {
      port := DefaultPort;
    }
    var username := Strip(answers[p + 3]);
    var password := Strip(answers[p + 4]);
    e := Entry(name, host, port, username, password);
  }

  // ---------------------------------------------------------------- monitoring

  /** `int(s) if s.isdigit() else 15` on the stripped answer. */
  function ParseInterval(answer: string): (n: nat)
    ensures n != DefaultInterval ==> IsDigitString(Strip(answer))
  {
    var t := Strip(answer);
    if IsDigitString(t) then DecimalValue(t) else DefaultInterval
  }

  /** A number typed with any surrounding whitespace is read back as that number, 0 included. */
  lemma IntervalOfNumber(n: nat, a: string, b: string)
    requires AllSpace(a) && AllSpace(b)
    ensures ParseInterval(a + DecimalText(n) + b) == n
  {
    var t := DecimalText(n);
    assert !IsSpace(t[0]) && !IsSpace(t[|t| - 1]);
    StripPadded(a, t, b);
    DecimalRoundTrip(n);
  }

  /** Anything that is not a plain digit string, blank included, gives 15. */
  lemma IntervalDefault(answer: string)
    requires !IsDigitString(Strip(answer))
    ensures ParseInterval(answer) == 15
  {
  }

  /** A blank answer, a negative number and a decimal all fall back to 15. */
  lemma IntervalExamples()
    ensures ParseInterval("") == 15
    ensures ParseInterval("-5") == 15
    ensures ParseInterval("1.5") == 15
  {
    assert ParseInterval("") == 15 by {
      StripPadded([], [], []);
    }
    assert ParseInterval("-5") == 15 by {
      StripLine("-5", []);
      assert "-5" + [] == "-5";
      assert !IsDigit("-5"[0]);
    }
    assert ParseInterval("1.5") == 15 by {
      StripLine("1.5", []);
      assert "1.5" + [] == "1.5";
      assert !IsDigit("1.5"[1]);
    }
  }

  /** An interval of 0 is accepted as typed. */
  lemma IntervalZero()
    ensures ParseInterval("0") == 0
  {
    IntervalOfNumber(0, [], []);
    assert DecimalText(0) == "0";
    assert [] + "0" + [] == "0";
  }

  /** `get_monitoring_config`: the interval, and the fixed time zone. */
  function GetMonitoringConfig(answers: seq<string>, pos: nat): (r: Result<Parsed<Monitoring>, Stop>)
    ensures r.Ok? <==> pos < |answers|
    ensures r.Ok? ==> r.value.value.timezone == Timezone && r.value.next == pos + 1
    ensures r.Ok? ==> r.value.value.intervalMinutes == ParseInterval(answers[pos])
  {
    if pos >= |answers| then Err(EndOfInput)
    else Ok(Parsed(Monitoring(ParseInterval(answers[pos]), Timezone), pos + 1))
  }

  // ---------------------------------------------------------------- main

  /** What `main` ends with on the answers given: the assembled configuration, or why it stopped. */
  function SetupFrom(answers: seq<string>): (r: Result<Config, Stop>)
    ensures r.Ok? ==> r.value.telegram.botToken != [] && r.value.telegram.chatId != []
    ensures r.Ok? ==> r.value.monitoring.timezone == Timezone
  {
    var telegram :- GetTelegramConfig(answers, 0);
    var servers :- CollectServers(answers, telegram.next, []);
    var monitoring :- GetMonitoringConfig(answers, servers.next);
    if monitoring.next >= |answers| then Err(EndOfInput)
    else if !IsYes(answers[monitoring.next]) then Err(Cancelled)
    else Ok(Config(telegram.value, servers.value, monitoring.value))
  }

  /**
   * `main` up to saving: the three parts in order, then the confirmation.
   * Saving the file and the test message are not part of this model.
   */
  method RunSetup(answers: seq<string>) returns (r: Result<Config, Stop>)
    ensures r == SetupFrom(answers)
  {
    var telegram := GetTelegramConfig(answers, 0);
    if telegram.Err? {
      return Err(telegram.error);
    }
    var servers := GetServerConfig(answers, telegram.value.next);
    if servers.Err? {
      return Err(servers.error);
    }
    var monitoring := GetMonitoringConfig(answers, servers.value.next);
    if monitoring.Err? {
      return Err(monitoring.error);
    }
    var at := monitoring.value.next;
    if at >= |answers| {
      return Err(EndOfInput);
    }
    var confirm := Lower(Strip(answers[at]));
    if confirm != "y" {
      return Err(Cancelled);
    }
    r := Ok(Config(telegram.value.value, servers.value.value, monitoring.value.value));
  }

  /**
   * A finished setup has the two stripped Telegram answers, at least one
   * server, only complete servers, the interval read from the answer after
   * the last server round, and the Tehran zone.
   */
  lemma SetupShape(answers: seq<string>)
    requires SetupFrom(answers).Ok?
    ensures var c := SetupFrom(answers).value;
            && c.telegram == Telegram(Strip(answers[0]), Strip(answers[1]))
            && c.telegram.botToken != [] && c.telegram.chatId != []
            && |c.servers| >= 1
            && (forall k :: 0 <= k < |c.servers| ==> Complete(c.servers[k]))
            && c.monitoring.timezone == "Asia/Tehran"
            && c.monitoring.intervalMinutes == ParseInterval(answers[CollectServers(answers, 2, []).value.next])
  {
    TelegramOutcome(answers, 0);
    var telegram := GetTelegramConfig(answers, 0);
    assert telegram.Ok? && telegram.value.next == 2;
    var servers := CollectServers(answers, 2, []);
    assert servers.Ok?;
    CollectedServers(answers, 2, []);
    var monitoring := GetMonitoringConfig(answers, servers.value.next);
    assert monitoring.Ok?;
    assert SetupFrom(answers).value == Config(telegram.value.value, servers.value.value, monitoring.value.value);
  }

  /** An empty bot token ends the script before any server is asked for. */
  lemma EmptyTokenIsFatal(answers: seq<string>)
    requires |answers| > 0 && Strip(answers[0]) == []
    ensures SetupFrom(answers) == Err(MissingBotToken)
  {
  }
}
