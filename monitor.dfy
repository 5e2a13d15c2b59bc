/**
 * The decision rules of the monitor: how the output of the four remote
 * commands becomes a host record, how byte counts are scaled to a unit,
 * and what the interval report and the daily report hold for a fleet.
 *
 * The remote shell is a parameter: a session either fails to open, with
 * the error's text, or answers each command with its standard output or
 * with the text of the error it raised.
 */
module Monitor {
  import opened Outcomes
  import opened Text
  import opened Settings

  // ================================================================ stats

  /** The four commands a poll runs, in the order it runs them. */
  datatype Query = CpuUsage | RamUsage | DiskUsage | NetCounters

  /** What running one command gives: its standard output, or an error. */
  datatype Reply = Stdout(text: string) | Raised(message: string)

  /** An SSH session: refused (connection, authentication or timeout), or open. */
  datatype Session = Refused(message: string) | Connected(run: Query -> Reply)

  /** Why a poll was abandoned. */
  datatype Fault =
    | CommandFailed(message: string)
    | FloatSyntax(text: string)   // `float()` rejected a non-empty output
    | IntSyntax(text: string)     // `int()` rejected a counter token

  /** `str(e)` for the exception behind a fault. */
  function FaultText(f: Fault): (r: string)
    ensures f.CommandFailed? ==> r == f.message
    ensures !f.CommandFailed? ==> |r| >= |f.text| + 2 && r[|r| - |f.text| - 1..|r| - 1] == f.text && r[|r| - 1] == '\''
  {
    match f
    case CommandFailed(m) => m
    case FloatSyntax(t) => "could not convert string to float: '" + t + "'"
    case IntSyntax(t) => "invalid literal for int() with base 10: '" + t + "'"
  }

  datatype Status = Online | Offline

  /** The record a poll returns; `error` is the dictionary key set only when offline. */
  datatype Stats = Stats(cpu: real, ram: real, disk: real, rx: int, tx: int, status: Status, error: Option<string>)

  /** The metrics of a poll that completed. */
  datatype Reading = Reading(cpu: real, ram: real, disk: real, rx: int, tx: int)

  /** The shape every record has: an error exactly when offline, and an offline record is all zero. */
  predicate Normal(s: Stats) {
    && (s.status == Online <==> s.error.None?)
    && (s.status == Offline ==> s.cpu == 0.0 && s.ram == 0.0 && s.disk == 0.0 && s.rx == 0 && s.tx == 0)
  }

  function OfflineStats(message: string): Stats {
    Stats(0.0, 0.0, 0.0, 0, 0, Offline, Some(message))
  }

  function Output(reply: Reply): Result<string, Fault> {
    match reply
    case Stdout(t) => Ok(t)
    case Raised(m) => Err(CommandFailed(m))
  }

  /** `float(out.strip() or 0)`: empty output reads as 0, other output must be a number. */
  function Metric(out: string): (r: Result<real, Fault>)
    ensures Strip(out) == [] ==> r.Ok? && r.value == 0.0
    ensures r.Err? ==> r.error == FloatSyntax(Strip(out))
  {
    var t := Strip(out);
    if t == [] then Ok(0.0)
    else
      match ParseFloat(t)
      case Some(v) => Ok(v)
      case None => Err(FloatSyntax(t))
  }

  /** `int(tokens[i])` when there is such a token, 0 when there is not. */
  function Counter(tokens: seq<string>, i: nat): (r: Result<int, Fault>)
    ensures i >= |tokens| ==> r == Ok(0)
    ensures r.Err? ==> i < |tokens| && r.error == IntSyntax(tokens[i])
  {
    if i < |tokens| then
      match ParseInt(tokens[i])
      case Some(v) => Ok(v)
      case None => Err(IntSyntax(tokens[i]))
    else Ok(0)
  }

  /** The received and transmitted byte counters from the `eth0` line. */
  function Counters(out: string): (r: Result<(int, int), Fault>)
    ensures Split(Strip(out)) == [] ==> r == Ok((0, 0))
    ensures r.Err? ==> r.error.IntSyntax? && r.error.text in Split(Strip(out))
  {
    var tokens := Split(Strip(out));
    var rx :- Counter(tokens, 0);
    var tx :- Counter(tokens, 1);
    Ok((rx, tx))
  }

  /** The body of the `try` block: the four commands and their parses, the first failure winning. */
  function Probe(run: Query -> Reply): (r: Result<Reading, Fault>)
    ensures r.Ok? ==> run(CpuUsage).Stdout? && run(RamUsage).Stdout? && run(DiskUsage).Stdout? && run(NetCounters).Stdout?
  {
    var cpuOut :- Output(run(CpuUsage));
    var cpu :- Metric(cpuOut);
    var ramOut :- Output(run(RamUsage));
    var ram :- Metric(ramOut);
    var diskOut :- Output(run(DiskUsage));
    var disk :- Metric(diskOut);
    var netOut :- Output(run(NetCounters));
    var net :- Counters(netOut);
    Ok(Reading(cpu, ram, disk, net.0, net.1))
  }

  /** `get_server_stats`: poll one host; every failure becomes the all-zero offline record. */
  function GetServerStats(session: Session): (r: Stats)
    ensures Normal(r)
    ensures r.status == Online ==> session.Connected?
    ensures r.status == Offline ==> r == OfflineStats(r.error.value)
  {
    match session
    case Refused(m) => OfflineStats(m)
    case Connected(run) =>
      match Probe(run)
      case Ok(v) => Stats(v.cpu, v.ram, v.disk, v.rx, v.tx, Online, None)
      case Err(f) => OfflineStats(FaultText(f))
  }

  /** The output of a metric command is usable: empty, or a number. */
  predicate MetricParses(out: string) {
    Strip(out) == [] || ParseFloat(Strip(out)).Some?
  }

  /** The counter line is usable: whichever of its first two tokens exist are integers. */
  predicate CountersParse(out: string) {
    var tokens := Split(Strip(out));
    (|tokens| >= 1 ==> ParseInt(tokens[0]).Some?) && (|tokens| >= 2 ==> ParseInt(tokens[1]).Some?)
  }

  /** A reply the poll can use for the command it answers. */
  predicate Usable(q: Query, reply: Reply) {
    reply.Stdout? && if q == NetCounters then CountersParse(reply.text) else MetricParses(reply.text)
  }

  lemma MetricOk(out: string)
    ensures Metric(out).Ok? <==> MetricParses(out)
  {
  }

  lemma CountersOk(out: string)
    ensures Counters(out).Ok? <==> CountersParse(out)
  {
  }

  /** A host is online exactly when the session opened and every command gave usable output. */
  lemma OnlineIff(session: Session)
    ensures GetServerStats(session).status == Online
            <==> session.Connected? && forall q :: Usable(q, session.run(q))
  {
    if session.Connected? {
      var run := session.run;
      if run(CpuUsage).Stdout? { MetricOk(run(CpuUsage).text); }
      if run(RamUsage).Stdout? { MetricOk(run(RamUsage).text); }
      if run(DiskUsage).Stdout? { MetricOk(run(DiskUsage).text); }
      if run(NetCounters).Stdout? { CountersOk(run(NetCounters).text); }
      if GetServerStats(session).status == Online {
        forall q ensures Usable(q, run(q)) {
          match q
          case CpuUsage =>
          case RamUsage =>
          case DiskUsage =>
          case NetCounters =>
        }
      } else {
        assert !Usable(CpuUsage, run(CpuUsage)) || !Usable(RamUsage, run(RamUsage))
            || !Usable(DiskUsage, run(DiskUsage)) || !Usable(NetCounters, run(NetCounters));
      }
    }
  }

  /** Non-empty output that is not a number takes the whole host offline, not just that metric. */
  lemma UnparsableMetricDropsHost(session: Session, q: Query)
    requires session.Connected? && q != NetCounters
    requires session.run(q).Stdout?
    requires Strip(session.run(q).text) != [] && ParseFloat(Strip(session.run(q).text)).None?
    ensures GetServerStats(session).status == Offline
    ensures GetServerStats(session) == OfflineStats(GetServerStats(session).error.value)
  {
    OnlineIff(session);
    assert !Usable(q, session.run(q));
  }

  /** An integer-less counter token takes the whole host offline. */
  lemma UnparsableCounterDropsHost(session: Session, i: nat)
    requires session.Connected? && session.run(NetCounters).Stdout?
    requires i < 2 && i < |Split(Strip(session.run(NetCounters).text))|
    requires ParseInt(Split(Strip(session.run(NetCounters).text))[i]).None?
    ensures GetServerStats(session).status == Offline
  {
    CounterTokenFails(session.run(NetCounters).text, i);
    ProbeNeedsCounters(session.run);
  }

  /** One of the first two tokens failing `int()` fails the counter parse. */
  lemma CounterTokenFails(out: string, i: nat)
    requires i < 2 && i < |Split(Strip(out))| && ParseInt(Split(Strip(out))[i]).None?
    ensures Counters(out).Err?
  {
    CountersOk(out);
    var tokens := Split(Strip(out));
    if i == 0 { assert ParseInt(tokens[0]).None?; } else { assert ParseInt(tokens[1]).None?; }
  }

  /** The poll succeeds only if the counter command answered with a usable line. */
  lemma ProbeNeedsCounters(run: Query -> Reply)
    ensures Probe(run).Ok? ==> run(NetCounters).Stdout? && Counters(run(NetCounters).text).Ok?
  {
    if Probe(run).Ok? {
      ProbeReading(run);
    }
  }

  /** A refused connection, or a first command that raises, gives the offline record with that error text. */
  lemma FailureRecord(session: Session)
    ensures session.Refused? ==> GetServerStats(session) == OfflineStats(session.message)
    ensures session.Connected? && session.run(CpuUsage).Raised? ==>
              GetServerStats(session) == OfflineStats(session.run(CpuUsage).message)
    ensures session.Connected? && session.run(CpuUsage).Stdout? && !MetricParses(session.run(CpuUsage).text) ==>
              GetServerStats(session) ==
              OfflineStats("could not convert string to float: '" + Strip(session.run(CpuUsage).text) + "'")
  {
  }

  /** The position of a command in the poll. */
  function Order(q: Query): nat {
    match q
    case CpuUsage => 0
    case RamUsage => 1
    case DiskUsage => 2
    case NetCounters => 3
  }

  /** Every command the poll runs before `q` gave usable output. */
  predicate UsableBefore(run: Query -> Reply, q: Query) {
    && (Order(q) > 0 ==> Usable(CpuUsage, run(CpuUsage)))
    && (Order(q) > 1 ==> Usable(RamUsage, run(RamUsage)))
    && (Order(q) > 2 ==> Usable(DiskUsage, run(DiskUsage)))
  }

  /** The first three commands gave usable output. */
  lemma MetricsUsable(run: Query -> Reply, q: Query)
    requires UsableBefore(run, q)
    ensures Order(q) > 0 ==> Output(run(CpuUsage)).Ok? && Metric(run(CpuUsage).text).Ok?
    ensures Order(q) > 1 ==> Output(run(RamUsage)).Ok? && Metric(run(RamUsage).text).Ok?
    ensures Order(q) > 2 ==> Output(run(DiskUsage)).Ok? && Metric(run(DiskUsage).text).Ok?
  {
    if Order(q) > 0 { MetricOk(run(CpuUsage).text); }
    if Order(q) > 1 { MetricOk(run(RamUsage).text); }
    if Order(q) > 2 { MetricOk(run(DiskUsage).text); }
  }

  /** Whichever command raises first, the record is offline with that exception's text. */
  lemma CommandRaises(session: Session, q: Query)
    requires session.Connected? && UsableBefore(session.run, q) && session.run(q).Raised?
    ensures GetServerStats(session) == OfflineStats(session.run(q).message)
  {
    MetricsUsable(session.run, q);
  }

  /** Whichever metric output first fails `float()`, the record is offline with that `ValueError`'s text. */
  lemma MetricRejected(session: Session, q: Query)
    requires session.Connected? && q != NetCounters && UsableBefore(session.run, q)
    requires session.run(q).Stdout? && !MetricParses(session.run(q).text)
    ensures GetServerStats(session) ==
            OfflineStats("could not convert string to float: '" + Strip(session.run(q).text) + "'")
  {
    MetricsUsable(session.run, q);
    MetricOk(session.run(q).text);
  }

  /**
   * When the counter line is the first unusable output, the record is offline
   * with the `ValueError` text of the first of its two tokens that `int()` rejects.
   */
  lemma CountersRejected(session: Session)
    requires session.Connected? && UsableBefore(session.run, NetCounters)
    requires session.run(NetCounters).Stdout? && !CountersParse(session.run(NetCounters).text)
    ensures var tokens := Split(Strip(session.run(NetCounters).text));
            var bad := if ParseInt(tokens[0]).None? then tokens[0] else tokens[1];
            GetServerStats(session) == OfflineStats("invalid literal for int() with base 10: '" + bad + "'")
  {
    var out := session.run(NetCounters).text;
    var tokens := Split(Strip(out));
    var bad := if ParseInt(tokens[0]).None? then tokens[0] else tokens[1];
    assert Probe(session.run) == Err(IntSyntax(bad)) by {
      CountersFault(out);
      ProbeCountersFault(session.run);
    }
    FaultRecord(session, IntSyntax(bad));
  }

  /** A poll that fails with a fault gives the offline record with that fault's text. */
  lemma FaultRecord(session: Session, f: Fault)
    requires session.Connected? && Probe(session.run) == Err(f)
    ensures GetServerStats(session) == OfflineStats(FaultText(f))
  {
  }

  /** A counter line that does not parse fails on the first of its two tokens that `int()` rejects. */
  lemma CountersFault(out: string)
    requires !CountersParse(out)
    ensures var tokens := Split(Strip(out));
            var bad := if ParseInt(tokens[0]).None? then tokens[0] else tokens[1];
            Counters(out) == Err(IntSyntax(bad))
  {
  }

  /** After three usable metric outputs, the poll fails exactly as the counter parse does. */
  lemma ProbeCountersFault(run: Query -> Reply)
    requires UsableBefore(run, NetCounters) && run(NetCounters).Stdout? && Counters(run(NetCounters).text).Err?
    ensures Probe(run) == Err(Counters(run(NetCounters).text).error)
  {
    MetricsUsable(run, NetCounters);
  }

  /** The value `v` is what a metric command's output `out` says: 0 when empty, else the number it spells. */
  ghost predicate MetricReads(out: string, v: real) {
    if Strip(out) == [] then v == 0.0 else ParseFloat(Strip(out)) == Some(v)
  }

  lemma MetricValue(out: string)
    requires Metric(out).Ok?
    ensures MetricReads(out, Metric(out).value)
  {
  }

  /** `rx` and `tx` are what the counter line `out` says: its first and second tokens, 0 when missing. */
  ghost predicate CountersRead(out: string, rx: int, tx: int) {
    var tokens := Split(Strip(out));
    && (if |tokens| >= 1 then ParseInt(tokens[0]) == Some(rx) else rx == 0)
    && (if |tokens| >= 2 then ParseInt(tokens[1]) == Some(tx) else tx == 0)
  }

  lemma CountersValue(out: string)
    requires Counters(out).Ok?
    ensures CountersRead(out, Counters(out).value.0, Counters(out).value.1)
  {
  }

  /** A successful poll took each reading from its command's output. */
  lemma ProbeReading(run: Query -> Reply)
    requires Probe(run).Ok?
    ensures var v := Probe(run).value;
            && run(CpuUsage).Stdout? && Metric(run(CpuUsage).text).Ok? && Metric(run(CpuUsage).text).value == v.cpu
            && run(RamUsage).Stdout? && Metric(run(RamUsage).text).Ok? && Metric(run(RamUsage).text).value == v.ram
            && run(DiskUsage).Stdout? && Metric(run(DiskUsage).text).Ok? && Metric(run(DiskUsage).text).value == v.disk
            && run(NetCounters).Stdout? && Counters(run(NetCounters).text).Ok?
            && Counters(run(NetCounters).text).value == (v.rx, v.tx)
  {
  }

  /** An online record is the successful poll's reading. */
  lemma OnlineReading(session: Session)
    requires session.Connected? && GetServerStats(session).status == Online
    ensures var r, p := GetServerStats(session), Probe(session.run);
            && p.Ok? && r.error == None
            && r.cpu == p.value.cpu && r.ram == p.value.ram && r.disk == p.value.disk
            && r.rx == p.value.rx && r.tx == p.value.tx
  {
  }

  /** What an online record holds: each metric is what its command's output says. */
  lemma OnlineMetrics(session: Session)
    requires session.Connected?
    requires GetServerStats(session).status == Online
    ensures var r, run := GetServerStats(session), session.run;
            && run(CpuUsage).Stdout? && run(RamUsage).Stdout? && run(DiskUsage).Stdout?
            && MetricReads(run(CpuUsage).text, r.cpu)
            && MetricReads(run(RamUsage).text, r.ram)
            && MetricReads(run(DiskUsage).text, r.disk)
  {
    var run := session.run;
    OnlineReading(session);
    ProbeReading(run);
    MetricValue(run(CpuUsage).text);
    MetricValue(run(RamUsage).text);
    MetricValue(run(DiskUsage).text);
  }

  /** An online record's counters: the first token (or 0) and the second token (or 0). */
  lemma OnlineCounters(session: Session)
    requires session.Connected?
    requires GetServerStats(session).status == Online
    ensures var r, run := GetServerStats(session), session.run;
            && run(NetCounters).Stdout?
            && CountersRead(run(NetCounters).text, r.rx, r.tx)
  {
    OnlineReading(session);
    ProbeReading(session.run);
    CountersValue(session.run(NetCounters).text);
  }

  /** A metric whose output strips to a number reads as that number. */
  lemma MetricOfText(out: string, t: string)
    requires Strip(out) == t && t != [] && ParseFloat(t).Some?
    ensures Metric(out) == Ok(ParseFloat(t).value)
  {
  }

  /** A reply such as `42.3\n` (digits, a point, digits, then whitespace) reads as its decimal value. */
  lemma MetricOfDecimal(whole: string, fraction: string, pad: string)
    requires IsDigitString(whole) && AllDigits(fraction) && AllSpace(pad)
    ensures Metric(whole + "." + fraction + pad).Ok?
    ensures Metric(whole + "." + fraction + pad).value == DecimalValue(whole) as real + FractionValue(fraction)
  {
    var t := whole + "." + fraction;
    assert Strip(t + pad) == t by {
      assert !IsSpace(t[0]) by { assert t[0] == whole[0]; }
      assert !IsSpace(t[|t| - 1]) by {
        if fraction == [] { assert t[|t| - 1] == '.'; } else { assert t[|t| - 1] == fraction[|fraction| - 1]; }
      }
      StripLine(t, pad);
    }
    assert ParseFloat(t).Some? && ParseFloat(t).value == DecimalValue(whole) as real + FractionValue(fraction) by {
      ParseFloatDecimal(whole, fraction);
    }
    assert t + pad == whole + "." + fraction + pad;
    MetricOfText(t + pad, t);
  }

  /** A reply such as `70\n` (digits, then whitespace) reads as that whole number. */
  lemma MetricOfDigits(digits: string, pad: string)
    requires IsDigitString(digits) && AllSpace(pad)
    ensures Metric(digits + pad).Ok?
    ensures Metric(digits + pad).value == DecimalValue(digits) as real
  {
    StripLine(digits, pad);
    ParseFloatExtendsParseInt(digits);
    MetricOfText(digits + pad, digits);
  }

  /** A counter line of exactly two integer tokens reads as those two integers. */
  lemma CountersOfTokens(out: string, a: string, b: string)
    requires Split(Strip(out)) == [a, b]
    requires ParseInt(a).Some? && ParseInt(b).Some?
    ensures Counters(out) == Ok((ParseInt(a).value, ParseInt(b).value))
  {
  }

  /** A reply such as `1000 2000\n` reads as the received and transmitted byte counts. */
  lemma CountersOfDigits(a: string, b: string, pad: string)
    requires IsDigitString(a) && IsDigitString(b) && AllSpace(pad)
    ensures Counters(a + " " + b + pad) == Ok((DecimalValue(a) as int, DecimalValue(b) as int))
  {
    var t := a + " " + b;
    assert Strip(t + pad) == t by {
      assert t[0] == a[0];
      assert t[|t| - 1] == b[|b| - 1];
      StripLine(t, pad);
    }
    assert Split(Strip(t + pad)) == [a, b] by {
      SplitPair(a, b);
    }
    assert t + pad == a + " " + b + pad;
    CountersOfTokens(t + pad, a, b);
  }

  lemma CpuReply()
    ensures Metric("42.3\n").Ok? && Metric("42.3\n").value == 42.3
  {
    assert DecimalValue("42") == 42 by { assert "42"[..1] == "4"; assert "4"[..0] == ""; }
    assert FractionValue("3") == 0.3 by { assert DecimalValue("3") == 3 by { assert "3"[..0] == ""; } }
    assert "42" + "." + "3" + "\n" == "42.3\n";
    MetricOfDecimal("42", "3", "\n");
  }

  lemma RamReply()
    ensures Metric("55.0\n").Ok? && Metric("55.0\n").value == 55.0
  {
    assert DecimalValue("55") == 55 by { assert "55"[..1] == "5"; assert "5"[..0] == ""; }
    assert FractionValue("0") == 0.0 by { assert DecimalValue("0") == 0 by { assert "0"[..0] == ""; } }
    assert "55" + "." + "0" + "\n" == "55.0\n";
    MetricOfDecimal("55", "0", "\n");
  }

  lemma DiskReply()
    ensures Metric("70\n").Ok? && Metric("70\n").value == 70.0
  {
    assert DecimalValue("70") == 70 by { assert "70"[..1] == "7"; assert "7"[..0] == ""; }
    assert "70" + "\n" == "70\n";
    MetricOfDigits("70", "\n");
  }

  lemma NetReply()
    ensures Counters("1000 2000\n") == Ok((1000, 2000))
  {
    assert DecimalValue("1000") == 1000 by {
      assert "1000"[..3] == "100"; assert "100"[..2] == "10"; assert "10"[..1] == "1"; assert "1"[..0] == "";
    }
    assert DecimalValue("2000") == 2000 by {
      assert "2000"[..3] == "200"; assert "200"[..2] == "20"; assert "20"[..1] == "2"; assert "2"[..0] == "";
    }
    assert "1000" + " " + "2000" + "\n" == "1000 2000\n";
    CountersOfDigits("1000", "2000", "\n");
  }

  /** A healthy host answering the four commands with typical output is online with exactly those readings. */
  lemma HealthyHostExample(session: Session)
    requires session.Connected?
    requires session.run(CpuUsage) == Stdout("42.3\n") && session.run(RamUsage) == Stdout("55.0\n")
    requires session.run(DiskUsage) == Stdout("70\n") && session.run(NetCounters) == Stdout("1000 2000\n")
    ensures var r := GetServerStats(session);
      r.status == Online && r.error == None && r.cpu == 42.3 && r.ram == 55.0 && r.disk == 70.0
      && r.rx == 1000 && r.tx == 2000
  {
    CpuReply();
    RamReply();
    DiskReply();
    NetReply();
    var p := Probe(session.run);
    assert p.Ok? && p.value.cpu == 42.3 && p.value.ram == 55.0 && p.value.disk == 70.0
      && p.value.rx == 1000 && p.value.tx == 2000;
  }

  // ================================================================ byte units

  /** The units `format_bytes` chooses from; PB is the ceiling. */
  datatype Unit = B | KB | MB | GB | TB | PB

  function UnitAt(k: nat): Unit
    requires k <= 5
  {
    [B, KB, MB, GB, TB, PB][k]
  }

  /** The position of a unit in B, KB, MB, GB, TB, PB. */
  function Rank(u: Unit): (k: nat)
    ensures k <= 5 && UnitAt(k) == u
  {
    match u
    case B => 0
    case KB => 1
    case MB => 2
    case GB => 3
    case TB => 4
    case PB => 5
  }

  /** 1024 to the power `k`: the size of the k-th unit in bytes. */
  function Power(k: nat): (r: real)
    ensures r >= 1.0
  {
    if k == 0 then 1.0 else 1024.0 * Power(k - 1)
  }

  /** Unit `k` is the one for `b` bytes: `b` is at least one of it and under one of the next. */
  ghost predicate Fits(b: real, k: nat) {
    && k <= 5
    && (0 < k ==> Power(k) <= b)
    && (k < 5 ==> b < Power(k + 1))
  }

  /** A byte count as displayed: a scaled magnitude and its unit. */
  datatype Shown = Shown(value: real, unit: Unit)

  lemma {:induction false} PowerGrows(j: nat, k: nat)
    requires j < k
    ensures Power(j) < Power(k)
  {
    if j + 1 < k {
      PowerGrows(j, k - 1);
    }
  }

  /** There is only one unit for a given byte count. */
  lemma FitsUnique(b: real, j: nat, k: nat)
    requires Fits(b, j) && Fits(b, k)
    ensures j == k
  {
    if j < k {
      assert j + 1 <= k;
      if j + 1 < k { PowerGrows(j + 1, k); }
    } else if k < j {
      if k + 1 < j { PowerGrows(k + 1, j); }
    }
  }

  lemma DivideStep(b: real, p: real, v: real)
    requires p > 0.0 && v == b / p
    ensures v < 1024.0 <==> b < 1024.0 * p
    ensures v / 1024.0 == b / (1024.0 * p)
  {
    assert b == v * p;
  }

  /**
   * `format_bytes`: divide by 1024 until the magnitude is under 1024, at most
   * five times. The unit it stops at is the one the count fits, and the value
   * is the count in that unit.
   */
  method FormatBytes(bytes: real) returns (shown: Shown)
    ensures Fits(bytes, Rank(shown.unit))
    ensures shown.value == bytes / Power(Rank(shown.unit))
  {
    var units := [B, KB, MB, GB, TB];
    var value := bytes;
    var i := 0;
    while i < |units|
      invariant 0 <= i <= 5
      invariant value == bytes / Power(i)
      invariant 0 < i ==> Power(i) <= bytes
    {
      DivideStep(bytes, Power(i), value);
      if value < 1024.0 {
        return Shown(value, units[i]);
      }
      value := value / 1024.0;
      i := i + 1;
    }
    return Shown(value, PB);
  }

  /** The unit a byte count fits: the first one, from bytes up, whose next unit it does not reach. */
  function Magnitude(b: real): (k: nat)
    ensures Fits(b, k)
  {
    MagnitudeFrom(b, 0)
  }

  /** Starting at unit `k`, step up while the count reaches the next unit and there is one. */
  function MagnitudeFrom(b: real, k: nat): (j: nat)
    requires k <= 5 && (k == 0 || Power(k) <= b)
    ensures Fits(b, j)
    decreases 5 - k
  {
    if k == 5 || b < Power(k + 1) then k else MagnitudeFrom(b, k + 1)
  }

  /** The displayed form of a byte count, as the reports use it. */
  function Scaled(b: real): Shown {
    var k := Magnitude(b);
    Shown(b / Power(k), UnitAt(k))
  }

  /** The displayed unit is the one the count fits, and the value is the count in that unit. */
  lemma ScaledFits(b: real)
    ensures Fits(b, Rank(Scaled(b).unit)) && Scaled(b).value == b / Power(Rank(Scaled(b).unit))
  {
    var k := Magnitude(b);
    assert Rank(UnitAt(k)) == k;
  }

  /** Whatever `format_bytes` returns is `Scaled`. */
  lemma FormatBytesIsScaled(b: real, shown: Shown)
    requires Fits(b, Rank(shown.unit)) && shown.value == b / Power(Rank(shown.unit))
    ensures shown == Scaled(b)
  {
    ScaledFits(b);
    FitsUnique(b, Rank(shown.unit), Rank(Scaled(b).unit));
  }

  /** A call of `format_bytes`, as the reports make it. */
  method ShowBytes(b: real) returns (shown: Shown)
    ensures shown == Scaled(b)
  {
    shown := FormatBytes(b);
    FormatBytesIsScaled(b, shown);
  }

  /** Unit index k is chosen exactly when 1024^k <= b < 1024^(k+1); PB has no upper bound. */
  lemma ScaledUnit(b: real, k: nat)
    requires k <= 5
    ensures Scaled(b).unit == UnitAt(k) <==> Fits(b, k)
    ensures Scaled(b).unit == UnitAt(k) ==> Scaled(b).value == b / Power(k)
  {
    ScaledFits(b);
    if Fits(b, k) {
      FitsUnique(b, k, Rank(Scaled(b).unit));
    }
  }

  /** Under 1024, including zero and negative counts, the count stays in bytes unchanged. */
  lemma ScaledSmall(b: real)
    requires b < 1024.0
    ensures Scaled(b) == Shown(b, B)
  {
  }

  /** From 1024^5 on the unit is always PB. */
  lemma ScaledHuge(b: real)
    requires b >= Power(5)
    ensures Scaled(b) == Shown(b / Power(5), PB)
  {
  }

  /** A larger count never gets a smaller unit. */
  lemma ScaledMonotone(a: real, b: real)
    requires a <= b
    ensures Rank(Scaled(a).unit) <= Rank(Scaled(b).unit)
  {
    ScaledFits(a);
    ScaledFits(b);
  }

  lemma ScaledExamples()
    ensures Scaled(0.0) == Shown(0.0, B)
    ensures Scaled(1536.0) == Shown(1.5, KB)
    ensures Scaled(1073741824.0) == Shown(1.0, GB)
  {
    assert Power(1) == 1024.0;
    assert Power(2) == 1048576.0;
    assert Power(3) == 1073741824.0;
  }

  // ================================================================ interval report

  /** The text an offline section shows when a record carries no error. */
  const NoErrorText: string := "Connection failed"

  /** One host's part of the interval report. */
  datatype Section =
    | UpSection(name: string, input: Shown, output: Shown, total: Shown, cpu: real, ram: real, disk: real)
    | DownSection(name: string, error: string)

  /** The fleet totals closing the interval report. */
  datatype Totals = Totals(input: Shown, output: Shown, traffic: Shown)

  datatype IntervalReport = IntervalReport(sections: seq<Section>, totals: Totals)

  /** The section a record gives: traffic and load when online, the error when offline. */
  function SectionFor(name: string, s: Stats): (r: Section)
    ensures r.name == name && (r.UpSection? <==> s.status == Online)
    ensures r.DownSection? && s.error.Some? ==> r.error == s.error.value
  {
    if s.status == Online then
      UpSection(name, Scaled(s.rx as real), Scaled(s.tx as real), Scaled((s.rx + s.tx) as real), s.cpu, s.ram, s.disk)
    else DownSection(name, s.error.GetOr(NoErrorText))
  }

  function TotalsFor(rx: int, tx: int): Totals {
    Totals(Scaled(rx as real), Scaled(tx as real), Scaled((rx + tx) as real))
  }

  /** The received bytes of the online hosts. */
  function OnlineRx(stats: seq<Stats>): int {
    if stats == [] then 0
    else OnlineRx(stats[..|stats| - 1]) + (if stats[|stats| - 1].status == Online then stats[|stats| - 1].rx else 0)
  }

  /** The transmitted bytes of the online hosts. */
  function OnlineTx(stats: seq<Stats>): int {
    if stats == [] then 0
    else OnlineTx(stats[..|stats| - 1]) + (if stats[|stats| - 1].status == Online then stats[|stats| - 1].tx else 0)
  }

  /** The received bytes of all hosts. */
  function AllRx(stats: seq<Stats>): int {
    if stats == [] then 0 else AllRx(stats[..|stats| - 1]) + stats[|stats| - 1].rx
  }

  /** The transmitted bytes of all hosts. */
  function AllTx(stats: seq<Stats>): int {
    if stats == [] then 0 else AllTx(stats[..|stats| - 1]) + stats[|stats| - 1].tx
  }

  lemma OnlineStep(stats: seq<Stats>, i: nat)
    requires i < |stats|
    ensures OnlineRx(stats[..i + 1]) == OnlineRx(stats[..i]) + (if stats[i].status == Online then stats[i].rx else 0)
    ensures OnlineTx(stats[..i + 1]) == OnlineTx(stats[..i]) + (if stats[i].status == Online then stats[i].tx else 0)
  {
    assert stats[..i + 1][..i] == stats[..i];
  }

  /** One poll of every host, in configuration order. */
  function Poll(shells: seq<Session>): seq<Stats> {
    seq(|shells|, i requires 0 <= i < |shells| => GetServerStats(shells[i]))
  }

  /**
   * `generate_monitoring_report`: poll each configured server once, in order,
   * giving one section per server and totals over the online ones.
   * `shells[i]` is the session the poll of `servers[i]` gets.
   */
  method GenerateMonitoringReport(servers: seq<Server>, shells: seq<Session>) returns (report: IntervalReport)
    requires |shells| == |servers|
    ensures |report.sections| == |servers|
    ensures forall i :: 0 <= i < |servers| ==>
              report.sections[i] == SectionFor(servers[i].name, GetServerStats(shells[i]))
    ensures report.totals == TotalsFor(OnlineRx(Poll(shells)), OnlineTx(Poll(shells)))
  {
    var totalRx, totalTx := 0, 0;
    var sections: seq<Section> := [];
    ghost var polled := Poll(shells);
    var i := 0;
    while i < |servers|
      invariant 0 <= i <= |servers|
      invariant |sections| == i
      invariant forall k :: 0 <= k < i ==> sections[k] == SectionFor(servers[k].name, polled[k])
      invariant totalRx == OnlineRx(polled[..i]) && totalTx == OnlineTx(polled[..i])
    {
      var stats := GetServerStats(shells[i]);
      assert stats == polled[i];
      var section := ServerSection(servers[i].name, stats);
      if stats.status == Online {
        totalRx := totalRx + stats.rx;
        totalTx := totalTx + stats.tx;
      }
      OnlineStep(polled, i);
      ghost var before := sections;
      sections := sections + [section];
      forall k | 0 <= k <= i
        ensures sections[k] == SectionFor(servers[k].name, polled[k])
      {
        if k < i { assert sections[k] == before[k]; }
      }
      i := i + 1;
    }
    assert polled[..i] == polled;
    var totals := FleetTotals(totalRx, totalTx);
    report := IntervalReport(sections, totals);
  }

  /** One server's section of the interval report, its byte counts through `FormatBytes`. */
  method ServerSection(name: string, stats: Stats) returns (section: Section)
    ensures section == SectionFor(name, stats)
  {
    if stats.status == Online {
      var input := ShowBytes(stats.rx as real);
      var output := ShowBytes(stats.tx as real);
      var total := ShowBytes((stats.rx + stats.tx) as real);
      section := UpSection(name, input, output, total, stats.cpu, stats.ram, stats.disk);
    } else {
      section := DownSection(name, stats.error.GetOr(NoErrorText));
    }
  }

  /** The totals section, its byte counts through `FormatBytes`. */
  method FleetTotals(rx: int, tx: int) returns (totals: Totals)
    ensures totals == TotalsFor(rx, tx)
  {
    var input := ShowBytes(rx as real);
    var output := ShowBytes(tx as real);
    var traffic := ShowBytes((rx + tx) as real);
    totals := Totals(input, output, traffic);
  }

  /** Offline records carry zero counters, so summing over online hosts is summing over all. */
  lemma {:induction false} OnlineTotalsAreFleetTotals(stats: seq<Stats>)
    requires forall i :: 0 <= i < |stats| ==> Normal(stats[i])
    ensures OnlineRx(stats) == AllRx(stats) && OnlineTx(stats) == AllTx(stats)
  {
    if stats != [] {
      OnlineTotalsAreFleetTotals(stats[..|stats| - 1]);
    }
  }

  /** The totals of one poll equal the counters summed over every configured host. */
  lemma PollTotals(shells: seq<Session>)
    ensures OnlineRx(Poll(shells)) == AllRx(Poll(shells)) && OnlineTx(Poll(shells)) == AllTx(Poll(shells))
  {
    OnlineTotalsAreFleetTotals(Poll(shells));
  }

  /**
   * An offline host's section shows the record's own error: a polled record
   * always has one, so "Connection failed" never shows.
   */
  lemma DownSectionShowsError(name: string, session: Session)
    requires GetServerStats(session).status == Offline
    ensures SectionFor(name, GetServerStats(session)) == DownSection(name, GetServerStats(session).error.value)
    ensures session.Refused? ==> SectionFor(name, GetServerStats(session)) == DownSection(name, session.message)
  {
  }

  /** A section is online exactly when its record is, and it always names its server. */
  lemma SectionKind(name: string, s: Stats)
    ensures SectionFor(name, s).UpSection? <==> s.status == Online
    ensures SectionFor(name, s).name == name
    ensures s.status == Online ==> SectionFor(name, s).total == Scaled((s.rx + s.tx) as real)
  {
  }

  /**
   * A mixed fleet: host A online, host B refused, host C online with zero
   * counters. The report has an up, a down and an up section, C shows 0.0 B
   * of input and output, and the totals are A's counters.
   */
  lemma MixedFleet(a: Stats, bError: string, c: Stats)
    requires a.status == Online && c.status == Online && c.rx == 0 && c.tx == 0
    ensures var stats := [a, GetServerStats(Refused(bError)), c];
            && SectionFor("A", a).UpSection?
            && SectionFor("B", stats[1]) == DownSection("B", bError)
            && SectionFor("C", c).input == Shown(0.0, B) && SectionFor("C", c).output == Shown(0.0, B)
            && OnlineRx(stats) == a.rx && OnlineTx(stats) == a.tx
  {
    var stats := [a, GetServerStats(Refused(bError)), c];
    assert stats[1] == OfflineStats(bError);
    assert stats[..2][..1] == [a] && [a][..0] == [];
    assert stats[..2] == [a, OfflineStats(bError)];
    assert OnlineRx([a]) == a.rx && OnlineTx([a]) == a.tx;
    assert OnlineRx(stats[..2]) == a.rx && OnlineTx(stats[..2]) == a.tx;
  }

  // ================================================================ daily report

  /** The synthetic margins of the daily report, in percentage points. */
  const CpuMargin: real := 10.0
  const RamMargin: real := 15.0
  const DiskMargin: real := 5.0

  /** A "Min / Max" pair. */
  datatype Band = Band(low: real, high: real)

  /** `max(0, v - d)` and `v + d`. */
  function BandAround(v: real, d: real): (r: Band)
    ensures r.high == v + d
    ensures r.low >= 0.0 && r.low >= v - d && (r.low == 0.0 || r.low == v - d)
  {
    Band(if 0.0 < v - d then v - d else 0.0, v + d)
  }

  /** One host's part of the daily report, for every host whatever its status. */
  datatype DailySection = DailySection(name: string, input: Shown, output: Shown, total: Shown, cpu: Band, ram: Band, disk: Band)

  function DailyFor(name: string, s: Stats): (r: DailySection)
    ensures r.name == name && r.cpu.low >= 0.0 && r.ram.low >= 0.0 && r.disk.low >= 0.0
    ensures r.cpu.high == s.cpu + 10.0 && r.ram.high == s.ram + 15.0 && r.disk.high == s.disk + 5.0
  {
    DailySection(name, Scaled(s.rx as real), Scaled(s.tx as real), Scaled((s.rx + s.tx) as real),
                 BandAround(s.cpu, CpuMargin), BandAround(s.ram, RamMargin), BandAround(s.disk, DiskMargin))
  }

  /** The low end is never negative and the band contains a non-negative reading; the high end is not capped. */
  lemma BandBounds(v: real, d: real)
    requires d >= 0.0
    ensures BandAround(v, d).low >= 0.0
    ensures BandAround(v, d).high == v + d
    ensures v >= 0.0 ==> BandAround(v, d).low <= v <= BandAround(v, d).high
    ensures v >= d ==> BandAround(v, d).low == v - d
    ensures v <= d ==> BandAround(v, d).low == 0.0
  {
  }

  lemma BandExamples()
    ensures BandAround(50.0, CpuMargin) == Band(40.0, 60.0)
    ensures BandAround(5.0, CpuMargin) == Band(0.0, 15.0)
    ensures BandAround(95.0, CpuMargin).high > 100.0
  {
  }

  /** An offline host still gets a daily section: zero traffic, bands from zero. */
  lemma DailyOffline(name: string, message: string)
    ensures DailyFor(name, OfflineStats(message)) ==
            DailySection(name, Shown(0.0, B), Shown(0.0, B), Shown(0.0, B),
                         Band(0.0, 10.0), Band(0.0, 15.0), Band(0.0, 5.0))
  {
  }

  /** The daily sections of `servers`, polled as `stats`, in configuration order. */
  function DailySections(servers: seq<Server>, stats: seq<Stats>): (r: seq<DailySection>)
    requires |stats| == |servers|
    ensures |r| == |servers|
  {
    if servers == [] then []
    else
      DailySections(servers[..|servers| - 1], stats[..|stats| - 1])
        + [DailyFor(servers[|servers| - 1].name, stats[|stats| - 1])]
  }

  /** Section `k` of the daily report is server `k`'s, built from poll `k`. */
  lemma {:induction false} DailySectionsAt(servers: seq<Server>, stats: seq<Stats>, k: nat)
    requires |stats| == |servers| && k < |servers|
    ensures DailySections(servers, stats)[k] == DailyFor(servers[k].name, stats[k])
    decreases |servers|
  {
    var n := |servers| - 1;
    var left := DailySections(servers[..n], stats[..n]);
    var last := DailyFor(servers[n].name, stats[n]);
    assert DailySections(servers, stats) == left + [last];
    if k < n {
      assert (left + [last])[k] == left[k];
      DailySectionsAt(servers[..n], stats[..n], k);
      assert servers[..n][k] == servers[k] && stats[..n][k] == stats[k];
    } else {
      assert (left + [last])[k] == last;
    }
  }

  lemma DailyStep(servers: seq<Server>, stats: seq<Stats>, i: nat)
    requires |stats| == |servers| && i < |servers|
    ensures DailySections(servers[..i + 1], stats[..i + 1])
            == DailySections(servers[..i], stats[..i]) + [DailyFor(servers[i].name, stats[i])]
  {
    assert servers[..i + 1][..i] == servers[..i];
    assert stats[..i + 1][..i] == stats[..i];
  }

  /**
   * `send_daily_report` without the delivery: poll each configured server
   * again and give one section per server, in order.
   */
  method DailyReport(servers: seq<Server>, shells: seq<Session>) returns (sections: seq<DailySection>)
    requires |shells| == |servers|
    ensures sections == DailySections(servers, Poll(shells))
  {
    sections := [];
    ghost var polled := Poll(shells);
    var i := 0;
    while i < |servers|
      invariant 0 <= i <= |servers|
      invariant sections == DailySections(servers[..i], polled[..i])
    {
      var stats := GetServerStats(shells[i]);
      assert stats == polled[i];
      var section := DailyServerSection(servers[i].name, stats);
      DailyStep(servers, polled, i);
      sections := sections + [section];
      i := i + 1;
    }
    assert servers[..i] == servers && polled[..i] == polled;
  }

  /** One server's section of the daily report, its byte counts through `FormatBytes`. */
  method DailyServerSection(name: string, stats: Stats) returns (section: DailySection)
    ensures section == DailyFor(name, stats)
  {
    var input := ShowBytes(stats.rx as real);
    var output := ShowBytes(stats.tx as real);
    var total := ShowBytes((stats.rx + stats.tx) as real);
    section := DailySection(name, input, output, total,
                            BandAround(stats.cpu, CpuMargin), BandAround(stats.ram, RamMargin),
                            BandAround(stats.disk, DiskMargin));
  }
}
