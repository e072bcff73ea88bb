/**
 * The replica-set provider (lib/puppet/provider/mongodb_replset/mongo.rb): it records
 * what Puppet asks for, and on flush reconciles the declared members with the live
 * cluster by either initiating the set or adding the missing hosts.
 *
 * Every reply of the shell is an oracle in `Env`; every call of `mongo_command`
 * the provider makes is recorded, in order, in `issued`.
 */
module Replset {

  import opened Wrappers
  import opened Text
  import opened Collections
  import opened Ensurable
  import opened Command
  import ReplsetType

  // ---------------------------------------------------------------- replies

  /** The fields of an `rs.status()` reply that `alive_members` reads; None when the key is missing. */
  datatype StatusDoc = StatusDoc(errmsg: Option<string>, setName: Option<string>, info: Option<string>)

  /** The fields of an `rs.initiate()` or `rs.add()` reply that are read. */
  datatype OkDoc = OkDoc(ok: Option<int>, errmsg: Option<string>)

  /** An `rs.conf()` reply: `_id` and the `host` of each entry of `members`. */
  datatype MemberDoc = MemberDoc(host: string)
  datatype ConfDoc = ConfDoc(id: Option<string>, members: Option<seq<MemberDoc>>)

  /** The Puppet::Error messages `set_members` raises, and exceptions it lets through. */
  datatype ReplsetError =
    | NotReplSet(host: string)                          // "... is not supposed to be part of a replicaset."
    | ForeignSet(host: string)                          // "... is already part of another replicaset."
    | NoMemberReachable                                 // "Can't connect to any member of replicaset ..."
    | InitiateFailed(errmsg: Option<string>)            // "rs.initiate() failed for replicaset ..."
    | NoMaster                                          // "Can't find master host for replicaset ..."
    | AddFailed(host: string, errmsg: Option<string>)   // "rs.add() failed to add host to replicaset ..."
    | MembersNil                                        // NoMethodError: `empty?` on a nil member list
    | Propagated(message: string)                       // an exception from a shell call, passed on

  /** How `set_members` (and `flush`) end: normally, or with the exception they raise. */
  datatype Outcome = Done | Aborted(error: ReplsetError)

  // ---------------------------------------------------------------- commands

  const AuthQuery := Invocation("db.serverCmdLineOpts()" + ".parsed.security.authorization", Hash(Defaults.(json := false)))
  const ConfQuery := Invocation("rs.conf()", Hash(Defaults.(retries := Count(4))))

  function StatusProbe(host: string): Invocation {
    Invocation("rs.status()", Hash(Defaults.(host := Some(host))))
  }

  function PrimaryProbe(host: string): Invocation {
    Invocation("db.isMaster().primary", Hash(Defaults.(host := Some(host))))
  }

  function InitiateCommand(conf: string): Invocation {
    Invocation("rs.initiate(" + conf + ")", Hash(Defaults))
  }

  function AddCommand(host: string): Invocation {
    Invocation("rs.add(\"" + host + "\")", Hash(Defaults))
  }

  function StatusProbes(hosts: seq<string>): seq<Invocation> {
    if hosts == [] then [] else [StatusProbe(hosts[0])] + StatusProbes(hosts[1..])
  }

  function PrimaryProbes(hosts: seq<string>): seq<Invocation> {
    if hosts == [] then [] else [PrimaryProbe(hosts[0])] + PrimaryProbes(hosts[1..])
  }

  /** The commands that change the cluster: `rs.initiate(...)` and `rs.add(...)`. */
  predicate IsInitiate(c: Invocation) {
    StartsWith(c.command, "rs.initiate(")
  }

  predicate IsAdd(c: Invocation) {
    StartsWith(c.command, "rs.add(")
  }

  predicate NoChange(cmds: seq<Invocation>) {
    forall k :: 0 <= k < |cmds| ==> !IsInitiate(cmds[k]) && !IsAdd(cmds[k])
  }

  /** The queries and probes neither initiate nor add. */
  lemma QueriesChangeNothing(h: string)
    ensures !IsInitiate(AuthQuery) && !IsAdd(AuthQuery)
    ensures !IsInitiate(ConfQuery) && !IsAdd(ConfQuery)
    ensures !IsInitiate(StatusProbe(h)) && !IsAdd(StatusProbe(h))
    ensures !IsInitiate(PrimaryProbe(h)) && !IsAdd(PrimaryProbe(h))
  {
    assert AuthQuery.command[0] == 'd';
    assert PrimaryProbe(h).command == "db.isMaster().primary";
    NotStartsWith(AuthQuery.command, "rs.initiate(", 0);
    NotStartsWith(AuthQuery.command, "rs.add(", 0);
    NotStartsWith(PrimaryProbe(h).command, "rs.initiate(", 0);
    NotStartsWith(PrimaryProbe(h).command, "rs.add(", 0);
    NotStartsWith(StatusProbe(h).command, "rs.initiate(", 3);
    NotStartsWith(StatusProbe(h).command, "rs.add(", 3);
    NotStartsWith(ConfQuery.command, "rs.initiate(", 3);
    NotStartsWith(ConfQuery.command, "rs.add(", 3);
  }

  lemma InitiateKind(conf: string)
    ensures IsInitiate(InitiateCommand(conf)) && !IsAdd(InitiateCommand(conf))
  {
    StartsWithConcat("rs.initiate(", conf + ")");
    assert InitiateCommand(conf).command == "rs.initiate(" + (conf + ")");
    NotStartsWith(InitiateCommand(conf).command, "rs.add(", 3);
  }

  lemma AddKind(h: string)
    ensures IsAdd(AddCommand(h)) && !IsInitiate(AddCommand(h))
  {
    StartsWithConcat("rs.add(", "\"" + h + "\")");
    assert AddCommand(h).command == "rs.add(" + ("\"" + h + "\")");
    NotStartsWith(AddCommand(h).command, "rs.initiate(", 3);
  }

  /** Only `rs.initiate(...)` initiates and only `rs.add(...)` adds. */
  lemma CommandKinds(h: string, conf: string)
    ensures !IsInitiate(AuthQuery) && !IsAdd(AuthQuery)
    ensures !IsInitiate(ConfQuery) && !IsAdd(ConfQuery)
    ensures !IsInitiate(StatusProbe(h)) && !IsAdd(StatusProbe(h))
    ensures !IsInitiate(PrimaryProbe(h)) && !IsAdd(PrimaryProbe(h))
    ensures IsInitiate(InitiateCommand(conf)) && !IsAdd(InitiateCommand(conf))
    ensures IsAdd(AddCommand(h)) && !IsInitiate(AddCommand(h))
  {
    QueriesChangeNothing(h);
    InitiateKind(conf);
    AddKind(h);
  }

  // ---------------------------------------------------------------- the initiate configuration

  /** `{ _id: <id>, host: "<host>" }` */
  function MemberEntry(id: nat, host: string): string {
    "{ _id: " + Decimal(id) + ", host: \"" + host + "\" }"
  }

  /** The entries for `hosts[from..]`, numbered by position and joined with `,`. */
  function HostConf(hosts: seq<string>, from: nat): string
    requires from <= |hosts|
    decreases |hosts| - from
  {
    if from == |hosts| then ""
    else if from + 1 == |hosts| then MemberEntry(from, hosts[from])
    else MemberEntry(from, hosts[from]) + "," + HostConf(hosts, from + 1)
  }

  /** The argument of `rs.initiate`: `{ _id: "<name>", members: [ <entries> ] }`. */
  function ConfigText(name: string, hosts: seq<string>): string {
    "{ _id: \"" + name + "\", members: [ " + HostConf(hosts, 0) + " ] }"
  }

  /** Each host paired with its position: what the configuration is meant to say. */
  function Indexed(hosts: seq<string>): seq<(nat, string)> {
    seq(|hosts|, i requires 0 <= i < |hosts| => (i, hosts[i]))
  }

  function DigitRun(t: string): (n: nat)
    ensures n <= |t| && (forall i :: 0 <= i < n ==> IsDigit(t[i])) && (n < |t| ==> !IsDigit(t[n]))
  {
    if t == [] || !IsDigit(t[0]) then 0 else 1 + DigitRun(t[1..])
  }

  /** Reads one entry `{ _id: <digits>, host: "<h>" }` off the front of `s`: its id, host, and the rest. */
  function ReadEntry(s: string): (r: Option<(nat, string, string)>)
    ensures r.Some? ==> |r.value.2| < |s|
  {
    match After(s, "{ _id: ")
    case None => None
    case Some(t) =>
      var d := DigitRun(t);
      if d == 0 then None
      else match After(t[d..], ", host: ")
        case None => None
        case Some(u) => match UntilQuote(u)
          case None => None
          case Some((_, v)) => match UntilQuote(v)
            case None => None
            case Some((h, w)) => match After(w, " }")
              case None => None
              case Some(rest) =>
                if u[0] != '"' then None else Some((DigitsValue(t[..d]), h, rest))
  }

  /** Reads a `,`-separated list of entries. */
  function ReadEntries(s: string): Option<seq<(nat, string)>>
    decreases |s|
  {
    if s == [] then Some([])
    else match ReadEntry(s)
      case None => None
      case Some((id, h, rest)) =>
        if rest == [] then Some([(id, h)])
        else if rest[0] != ',' then None
        else match ReadEntries(rest[1..])
          case None => None
          case Some(es) => Some([(id, h)] + es)
  }

  /** Reads a configuration back: the set name and the numbered hosts. */
  function ReadConfig(text: string): Option<(string, seq<(nat, string)>)> {
    var close := " ] }";
    match After(text, "{ _id: \"")
    case None => None
    case Some(t) => match UntilQuote(t)
      case None => None
      case Some((name, u)) => match After(u, ", members: [ ")
        case None => None
        case Some(v) =>
          if |v| < |close| || v[|v| - |close|..] != close then None
          else match ReadEntries(v[..|v| - |close|])
            case None => None
            case Some(es) => Some((name, es))
  }

  lemma {:induction false} DigitRunOf(dec: string, rest: string)
    requires forall i :: 0 <= i < |dec| ==> IsDigit(dec[i])
    requires rest != [] && !IsDigit(rest[0])
    ensures DigitRun(dec + rest) == |dec|
    decreases |dec|
  {
    if dec != [] {
      assert (dec + rest)[1..] == dec[1..] + rest;
      DigitRunOf(dec[1..], rest);
    } else {
      assert dec + rest == rest;
    }
  }

  /** The steps `ReadEntry` takes, each given as a fact. */
  lemma ReadEntrySteps(s: string, t: string, d: nat, u: string, v: string, h: string, w: string, rest: string)
    requires After(s, "{ _id: ") == Some(t)
    requires 0 < d == DigitRun(t)
    requires After(t[d..], ", host: ") == Some(u)
    requires UntilQuote(u) == Some(("", v)) && u[0] == '"'
    requires UntilQuote(v) == Some((h, w))
    requires After(w, " }") == Some(rest)
    ensures ReadEntry(s) == Some((DigitsValue(t[..d]), h, rest))
  {
  }

  lemma EntryShape(id: nat, h: string, rest: string)
    ensures MemberEntry(id, h) + rest == "{ _id: " + (Decimal(id) + (", host: " + ("\"" + (h + "\"" + (" }" + rest)))))
  {
  }

  lemma ReadEntryOf(id: nat, h: string, rest: string)
    requires '"' !in h
    ensures ReadEntry(MemberEntry(id, h) + rest) == Some((id, h, rest))
  {
    var dec := Decimal(id);
    var w := " }" + rest;
    var v := h + "\"" + w;
    var u := "\"" + v;
    var t := dec + (", host: " + u);
    EntryShape(id, h, rest);
    AfterConcat("{ _id: ", t);
    DigitRunOf(dec, ", host: " + u);
    SliceConcat(dec, ", host: " + u);
    AfterConcat(", host: ", u);
    UntilQuoteOf("", v);
    UntilQuoteOf(h, w);
    AfterConcat(" }", rest);
    DecimalRoundTrip(id);
    ReadEntrySteps(MemberEntry(id, h) + rest, t, |dec|, u, v, h, w, rest);
  }

  lemma ReadEntriesCons(s: string, id: nat, h: string, rest: string, es: seq<(nat, string)>)
    requires ReadEntry(s) == Some((id, h, rest))
    requires rest != [] && rest[0] == ',' && ReadEntries(rest[1..]) == Some(es)
    ensures ReadEntries(s) == Some([(id, h)] + es)
  {
  }

  lemma HostConfStep(hosts: seq<string>, from: nat)
    requires from + 1 < |hosts|
    ensures HostConf(hosts, from) == MemberEntry(from, hosts[from]) + ("," + HostConf(hosts, from + 1))
  {
  }

  lemma IndexedFrom(hosts: seq<string>, from: nat)
    requires from < |hosts|
    ensures Indexed(hosts)[from..] == [(from, hosts[from])] + Indexed(hosts)[from + 1..]
  {
  }

  lemma ReadLastEntry(hosts: seq<string>, from: nat)
    requires from + 1 == |hosts| && '"' !in hosts[from]
    ensures ReadEntries(HostConf(hosts, from)) == Some(Indexed(hosts)[from..])
  {
    ReadEntryOf(from, hosts[from], "");
    assert MemberEntry(from, hosts[from]) + "" == MemberEntry(from, hosts[from]);
    assert MemberEntry(from, hosts[from])[0] == '{';
    assert HostConf(hosts, from) == MemberEntry(from, hosts[from]);
    assert ReadEntries(MemberEntry(from, hosts[from])) == Some([(from, hosts[from])]);
    IndexedFrom(hosts, from);
    assert Indexed(hosts)[from + 1..] == [];
    assert Indexed(hosts)[from..] == [(from, hosts[from])];
  }

  lemma ReadNextEntry(hosts: seq<string>, from: nat)
    requires from + 1 < |hosts| && '"' !in hosts[from]
    requires ReadEntries(HostConf(hosts, from + 1)) == Some(Indexed(hosts)[from + 1..])
    ensures ReadEntries(HostConf(hosts, from)) == Some(Indexed(hosts)[from..])
  {
    var rest := HostConf(hosts, from + 1);
    HostConfStep(hosts, from);
    ReadEntryOf(from, hosts[from], "," + rest);
    assert ("," + rest)[1..] == rest;
    assert ReadEntry(HostConf(hosts, from)) == Some((from, hosts[from], "," + rest));
    assert ("," + rest)[0] == ',';
    ReadEntriesCons(HostConf(hosts, from), from, hosts[from], "," + rest, Indexed(hosts)[from + 1..]);
    IndexedFrom(hosts, from);
  }

  lemma {:induction false} ReadEntriesOf(hosts: seq<string>, from: nat)
    requires from <= |hosts|
    requires forall h :: h in hosts ==> '"' !in h
    ensures ReadEntries(HostConf(hosts, from)) == Some(Indexed(hosts)[from..])
    decreases |hosts| - from
  {
    if from < |hosts| {
      assert hosts[from] in hosts;
      if from + 1 == |hosts| {
        ReadLastEntry(hosts, from);
      } else {
        ReadEntriesOf(hosts, from + 1);
        ReadNextEntry(hosts, from);
      }
    } else {
      assert Indexed(hosts)[from..] == [];
    }
  }

  /**
   * The configuration names the set and lists every live host, in order, with
   * `_id` equal to its position: reading it back gives exactly that.
   */
  lemma ConfigRoundTrip(name: string, hosts: seq<string>)
    requires '"' !in name
    requires forall h :: h in hosts ==> '"' !in h
    ensures ReadConfig(ConfigText(name, hosts)) == Some((name, Indexed(hosts)))
  {
    var body := HostConf(hosts, 0);
    var v := body + " ] }";
    var u := ", members: [ " + v;
    var t := name + "\"" + u;
    assert ConfigText(name, hosts) == "{ _id: \"" + t;
    AfterConcat("{ _id: \"", t);
    UntilQuoteOf(name, u);
    AfterConcat(", members: [ ", v);
    assert v[|v| - 4..] == " ] }";
    assert v[..|v| - 4] == body;
    ReadEntriesOf(hosts, 0);
    assert Indexed(hosts)[0..] == Indexed(hosts);
  }

  // ---------------------------------------------------------------- alive_members

  datatype Verdict = Keep | Drop | Abort(error: ReplsetError)

  /**
   * One run of the `select` block for `host`: a status naming this set, or carrying
   * `info`, keeps the host; a failure to connect (Puppet::ExecutionFailure) drops it; a
   * status naming another set, a node not started with `--replSet`, or any other
   * exception aborts the whole scan. Through `mongo_command` as written a failed probe
   * never arrives as Puppet::ExecutionFailure (see UnreachableHostAbortsScan); the scan
   * here takes the replies of the corrected, re-raising loop, under which it does.
   */
  function Classify(name: string, host: string, reply: Reply<StatusDoc>): Verdict {
    match reply
    case ExecFailure(_) => Drop
    case OtherFailure(m) => Abort(Propagated(m))
    case Answer(st) =>
      if st.errmsg == Some("not running with --replSet") then Abort(NotReplSet(host))
      else if st.setName.Some? then (if st.setName.value != name then Abort(ForeignSet(host)) else Keep)
      else if st.info.Some? then Keep
      else Drop
  }

  function Judge(name: string, status: string -> Reply<StatusDoc>, host: string): Verdict {
    Classify(name, host, status(host))
  }

  /**
   * A status probe runs with no retries, so through `mongo_command` as written its reply is
   * never Puppet::ExecutionFailure, and a failed first attempt becomes NoMethodError.
   */
  lemma ProbeFailureIsNotRescued(host: string, outcome: nat -> Attempt, doc: StatusDoc)
    ensures var o := Resolve(StatusProbe(host).arg);
            var reply := Delivered(Finish(o.json, Retry(o.retries.n, outcome).exit), doc);
            !reply.ExecFailure? && (outcome(0).Failed? ==> reply.OtherFailure?)
  {
    NoReraiseWithoutRetries(outcome);
  }

  /** As written, one unreachable host aborts the whole scan instead of being dropped. */
  lemma UnreachableHostAbortsScan(name: string, host: string, outcome: nat -> Attempt, doc: StatusDoc)
    requires outcome(0).Failed?
    ensures var o := Resolve(StatusProbe(host).arg);
            Classify(name, host, Delivered(Finish(o.json, Retry(o.retries.n, outcome).exit), doc)).Abort?
  {
    ProbeFailureIsNotRescued(host, outcome, doc);
  }

  /** With the failure re-raised, an unreachable host is dropped, as `alive_members` intends. */
  lemma UnreachableHostDroppedWhenReraised(name: string, host: string, outcome: nat -> Attempt, doc: StatusDoc)
    requires outcome(0).Failed?
    ensures var o := Resolve(StatusProbe(host).arg);
            Classify(name, host, Delivered(Finish(o.json, RetryReraising(o.retries.n, outcome).exit), doc)) == Drop
  {
    NoReraiseWithoutRetries(outcome);
  }

  /** The position of the first host whose status aborts the scan, or `|hosts|`. */
  function FirstAbort(name: string, status: string -> Reply<StatusDoc>, hosts: seq<string>): (k: nat)
    ensures k <= |hosts|
    ensures forall i :: 0 <= i < k ==> !Judge(name, status, hosts[i]).Abort?
    ensures k < |hosts| ==> Judge(name, status, hosts[k]).Abort?
  {
    if hosts == [] then 0
    else if Judge(name, status, hosts[0]).Abort? then 0
    else 1 + FirstAbort(name, status, hosts[1..])
  }

  /**
   * `alive_members`: the hosts kept, in order, or the first abort; and the status probes
   * issued, one per host up to and including the one that aborts.
   */
  function Alive(name: string, status: string -> Reply<StatusDoc>, hosts: seq<string>)
    : (Result<seq<string>, ReplsetError>, seq<Invocation>)
  {
    if hosts == [] then (Ok([]), [])
    else
      var h := hosts[0];
      var (rest, probes) := Alive(name, status, hosts[1..]);
      match Judge(name, status, h)
      case Abort(e) => (Err(e), [StatusProbe(h)])
      case Drop => (rest, [StatusProbe(h)] + probes)
      case Keep => (if rest.Ok? then Ok([h] + rest.value) else rest, [StatusProbe(h)] + probes)
  }

  /**
   * The scan aborts exactly when some host aborts it, and then with the first such
   * host's error; it probes the hosts in order up to that one.
   */
  lemma {:induction false} AliveMeaning(name: string, status: string -> Reply<StatusDoc>, hosts: seq<string>)
    ensures var r := Alive(name, status, hosts);
            var k := FirstAbort(name, status, hosts);
            && (r.0.Ok? <==> k == |hosts|)
            && (r.0.Err? ==> r.0.error == Judge(name, status, hosts[k]).error)
            && r.1 == StatusProbes(hosts[..Through(k, |hosts|)])
  {
    if hosts != [] {
      AliveMeaning(name, status, hosts[1..]);
      var k := FirstAbort(name, status, hosts[1..]);
      assert hosts[..Through(k, |hosts| - 1) + 1][1..] == hosts[1..][..Through(k, |hosts| - 1)];
      assert hosts[..1][1..] == [];
    }
  }

  /** Otherwise it keeps, in order, exactly the hosts whose status names this set or reports `info`. */
  lemma {:induction false} AliveKeeps(name: string, status: string -> Reply<StatusDoc>, hosts: seq<string>)
    ensures var r := Alive(name, status, hosts);
            r.0.Ok? ==> IsSubsequence(r.0.value, hosts)
                        && forall h :: h in r.0.value <==> h in hosts && Judge(name, status, h) == Keep
  {
    if hosts != [] {
      var h := hosts[0];
      AliveKeeps(name, status, hosts[1..]);
      var rest := Alive(name, status, hosts[1..]).0;
      assert hosts == [h] + hosts[1..];
      match Judge(name, status, h)
      case Abort(e) =>
      case Drop =>
        assert rest.Ok? && rest.value != [] ==> IsSubsequence(rest.value, hosts[1..]);
      case Keep =>
        assert rest.Ok? ==> ([h] + rest.value)[1..] == rest.value;
    }
  }

  /** The shape of the loop state while `alive_members` runs: hosts kept so far and probes so far, then the rest. */
  function Resume(kept: seq<string>, probes: seq<Invocation>, later: (Result<seq<string>, ReplsetError>, seq<Invocation>))
    : (Result<seq<string>, ReplsetError>, seq<Invocation>)
  {
    (if later.0.Ok? then Ok(kept + later.0.value) else later.0, probes + later.1)
  }

  /** `alive_members` as the loop the `select` runs. */
  method AliveMembers(name: string, status: string -> Reply<StatusDoc>, hosts: seq<string>)
    returns (alive: Result<seq<string>, ReplsetError>, probes: seq<Invocation>)
    ensures (alive, probes) == Alive(name, status, hosts)
  {
    var kept: seq<string> := [];
    probes := [];
    var i := 0;
    ghost var whole := Alive(name, status, hosts);
    assert hosts[i..] == hosts && [] + whole.1 == whole.1;
    assert whole.0.Ok? ==> [] + whole.0.value == whole.0.value;
    while i < |hosts|
      invariant 0 <= i <= |hosts|
      invariant Alive(name, status, hosts) == Resume(kept, probes, Alive(name, status, hosts[i..]))
    {
      var host := hosts[i];
      var reply := status(host);
      ghost var later := Alive(name, status, hosts[i + 1..]);
      assert hosts[i..][1..] == hosts[i + 1..] && hosts[i..][0] == host;
      ConcatAssoc(probes, [StatusProbe(host)], later.1);
      if later.0.Ok? {
        ConcatAssoc(kept, [host], later.0.value);
      }
      probes := probes + [StatusProbe(host)];
      match Classify(name, host, reply) {
        case Abort(e) =>
          alive := Err(e);
          return;
        case Keep =>
          kept := kept + [host];
        case Drop =>
      }
      i := i + 1;
    }
    assert hosts[i..] == [] && probes + [] == probes && kept + [] == kept;
    alive := Ok(kept);
  }

  // ---------------------------------------------------------------- master_host

  /** The position of the first host whose `db.isMaster().primary` query answers with a name or fails, or `|hosts|`. */
  function FirstDecided(primary: string -> Reply<Option<string>>, hosts: seq<string>): (k: nat)
    ensures k <= |hosts|
    ensures forall i :: 0 <= i < k ==> primary(hosts[i]) == Answer(None)
    ensures k < |hosts| ==> primary(hosts[k]) != Answer(None)
  {
    if hosts == [] then 0
    else if primary(hosts[0]) != Answer(None) then 0
    else 1 + FirstDecided(primary, hosts[1..])
  }

  /**
   * `master_host`: asks each host in turn for the primary and returns the first name
   * given (None plays Ruby's `false`); a failing query ends the search with its exception.
   */
  function MasterSearch(primary: string -> Reply<Option<string>>, hosts: seq<string>)
    : (Result<Option<string>, ReplsetError>, seq<Invocation>)
  {
    if hosts == [] then (Ok(None), [])
    else
      var h := hosts[0];
      match primary(h)
      case Answer(None) =>
        var (m, probes) := MasterSearch(primary, hosts[1..]);
        (m, [PrimaryProbe(h)] + probes)
      case Answer(Some(p)) => (Ok(Some(p)), [PrimaryProbe(h)])
      case ExecFailure(m) => (Err(Propagated(m)), [PrimaryProbe(h)])
      case OtherFailure(m) => (Err(Propagated(m)), [PrimaryProbe(h)])
  }

  /**
   * The search returns the primary named by the first host, in order, that names one,
   * after probing exactly the hosts up to it; it gives None when no host names one.
   */
  lemma {:induction false} MasterSearchMeaning(primary: string -> Reply<Option<string>>, hosts: seq<string>)
    ensures var r := MasterSearch(primary, hosts);
            var k := FirstDecided(primary, hosts);
            && r.1 == PrimaryProbes(hosts[..Through(k, |hosts|)])
            && (k == |hosts| ==> r.0 == Ok(None))
            && (k < |hosts| ==> r.0 == match primary(hosts[k])
                                      case Answer(p) => Ok(p)
                                      case ExecFailure(m) => Err(Propagated(m))
                                      case OtherFailure(m) => Err(Propagated(m)))
  {
    if hosts != [] {
      var k := FirstDecided(primary, hosts[1..]);
      MasterSearchMeaning(primary, hosts[1..]);
      assert hosts[..Through(k, |hosts| - 1) + 1][1..] == hosts[1..][..Through(k, |hosts| - 1)];
      assert hosts[..1][1..] == [];
    }
  }

  /** `master_host` as the early-return loop it is. */
  method MasterHost(primary: string -> Reply<Option<string>>, hosts: seq<string>)
    returns (master: Result<Option<string>, ReplsetError>, probes: seq<Invocation>)
    ensures (master, probes) == MasterSearch(primary, hosts)
  {
    probes := [];
    var i := 0;
    assert hosts[i..] == hosts && [] + MasterSearch(primary, hosts).1 == MasterSearch(primary, hosts).1;
    while i < |hosts|
      invariant 0 <= i <= |hosts|
      invariant MasterSearch(primary, hosts) == (MasterSearch(primary, hosts[i..]).0, probes + MasterSearch(primary, hosts[i..]).1)
    {
      var host := hosts[i];
      var reply := primary(host);
      ghost var later := MasterSearch(primary, hosts[i + 1..]);
      assert hosts[i..][1..] == hosts[i + 1..] && hosts[i..][0] == host;
      ConcatAssoc(probes, [PrimaryProbe(host)], later.1);
      probes := probes + [PrimaryProbe(host)];
      match reply {
        case Answer(Some(p)) =>
          master := Ok(Some(p));
          return;
        case Answer(None) =>
        case ExecFailure(m) =>
          master := Err(Propagated(m));
          return;
        case OtherFailure(m) =>
          master := Err(Propagated(m));
          return;
      }
      i := i + 1;
    }
    assert hosts[i..] == [] && probes + [] == probes;
    master := Ok(None);
  }

  // ---------------------------------------------------------------- adding hosts

  /** An `rs.add()` reply is accepted unless its `ok` field is 0. */
  predicate Accepted(reply: Reply<OkDoc>) {
    reply.Answer? && reply.value.ok != Some(0)
  }

  function AddCommands(hosts: seq<string>): seq<Invocation> {
    if hosts == [] then [] else [AddCommand(hosts[0])] + AddCommands(hosts[1..])
  }

  /** The position of the first host whose `rs.add()` is not accepted, or `|hosts|`. */
  function FirstRejected(add: string -> Reply<OkDoc>, hosts: seq<string>): (k: nat)
    ensures k <= |hosts|
    ensures forall i :: 0 <= i < k ==> Accepted(add(hosts[i]))
    ensures k < |hosts| ==> !Accepted(add(hosts[k]))
  {
    if hosts == [] then 0
    else if !Accepted(add(hosts[0])) then 0
    else 1 + FirstRejected(add, hosts[1..])
  }

  /** Why an `rs.add()` of `host` was not accepted. */
  function AddError(host: string, reply: Reply<OkDoc>): ReplsetError
    requires !Accepted(reply)
  {
    match reply
    case Answer(doc) => AddFailed(host, doc.errmsg)
    case ExecFailure(m) => Propagated(m)
    case OtherFailure(m) => Propagated(m)
  }

  /**
   * The `newhosts.each` loop: adds the hosts in order and stops at the first reply with
   * `ok == 0` (or the first exception).
   */
  function AddAll(add: string -> Reply<OkDoc>, hosts: seq<string>): (Outcome, seq<Invocation>) {
    if hosts == [] then (Done, [])
    else
      var h := hosts[0];
      if !Accepted(add(h)) then (Aborted(AddError(h, add(h))), [AddCommand(h)])
      else
        var (o, cmds) := AddAll(add, hosts[1..]);
        (o, [AddCommand(h)] + cmds)
  }

  /**
   * The adds are issued in order up to and including the first rejected one and no
   * further; the loop ends normally iff every add is accepted, and otherwise with the
   * first rejection's error. Nothing but `rs.add` is issued, so earlier adds stay done.
   */
  lemma {:induction false} AddAllMeaning(add: string -> Reply<OkDoc>, hosts: seq<string>)
    ensures var r := AddAll(add, hosts);
            var k := FirstRejected(add, hosts);
            && r.1 == AddCommands(hosts[..Through(k, |hosts|)])
            && (r.0.Done? <==> k == |hosts|)
            && (r.0.Aborted? ==> r.0.error == AddError(hosts[k], add(hosts[k])))
  {
    if hosts != [] {
      var k := FirstRejected(add, hosts[1..]);
      AddAllMeaning(add, hosts[1..]);
      assert hosts[..Through(k, |hosts| - 1) + 1][1..] == hosts[1..][..Through(k, |hosts| - 1)];
      assert hosts[..1][1..] == [];
    }
  }

  method AddHosts(add: string -> Reply<OkDoc>, hosts: seq<string>) returns (o: Outcome, cmds: seq<Invocation>)
    ensures (o, cmds) == AddAll(add, hosts)
  {
    cmds := [];
    var i := 0;
    assert hosts[i..] == hosts && [] + AddAll(add, hosts).1 == AddAll(add, hosts).1;
    while i < |hosts|
      invariant 0 <= i <= |hosts|
      invariant AddAll(add, hosts) == (AddAll(add, hosts[i..]).0, cmds + AddAll(add, hosts[i..]).1)
    {
      var host := hosts[i];
      var reply := add(host);
      ghost var later := AddAll(add, hosts[i + 1..]);
      assert hosts[i..][1..] == hosts[i + 1..] && hosts[i..][0] == host;
      ConcatAssoc(cmds, [AddCommand(host)], later.1);
      cmds := cmds + [AddCommand(host)];
      if !Accepted(reply) {
        o := Aborted(AddError(host, reply));
        return;
      }
      i := i + 1;
    }
    assert hosts[i..] == [] && cmds + [] == cmds;
    o := Done;
  }

  // ---------------------------------------------------------------- set_members

  /** What `@property_flush` has recorded: the `:ensure` and `:members` keys, None when absent. */
  datatype Intent = Intent(ensure: Option<Ensure>, members: Option<seq<string>>)

  /**
   * Everything `set_members` learns from the shell: `auth_enabled?`'s raw output, each
   * host's `rs.status()`, each host's `db.isMaster().primary`, the reply that becomes
   * `current_hosts`, the `rs.initiate` reply and each host's `rs.add` reply.
   */
  datatype Env = Env(
    auth: Reply<string>,
    status: string -> Reply<StatusDoc>,
    primary: string -> Reply<Option<string>>,
    current: Reply<seq<string>>,
    initiate: Reply<OkDoc>,
    add: string -> Reply<OkDoc>)

  /** The host list `set_members` works with (lines 158-177 of the provider), and the commands it took. */
  function LiveHosts(name: string, members: seq<string>, env: Env): (Result<seq<string>, ReplsetError>, seq<Invocation>) {
    if members == [] then (Ok([]), [])
    else match env.auth
      case ExecFailure(m) => (Err(Propagated(m)), [AuthQuery])
      case OtherFailure(m) => (Err(Propagated(m)), [AuthQuery])
      case Answer(out) =>
        if AuthEnabled(out) then (Ok(members), [AuthQuery])
        else
          var (alive, probes) := Alive(name, env.status, members);
          if alive == Ok([]) then (Err(NoMemberReachable), [AuthQuery] + probes)
          else (alive, [AuthQuery] + probes)
  }

  /** The initiate branch: one `rs.initiate` with the configuration built from the live hosts. */
  function Initiate(name: string, hosts: seq<string>, reply: Reply<OkDoc>): (Outcome, seq<Invocation>) {
    var cmds := [InitiateCommand(ConfigText(name, hosts))];
    match reply
    case Answer(doc) => (if doc.ok == Some(0) then Aborted(InitiateFailed(doc.errmsg)) else Done, cmds)
    case ExecFailure(m) => (Aborted(Propagated(m)), cmds)
    case OtherFailure(m) => (Aborted(Propagated(m)), cmds)
  }

  /** The add branch: find the master, ask it for `current_hosts`, add `hosts - current_hosts`. */
  function Extend(hosts: seq<string>, env: Env): (Outcome, seq<Invocation>) {
    var (master, probes) := MasterSearch(env.primary, hosts);
    match master
    case Err(e) => (Aborted(e), probes)
    case Ok(None) => (Aborted(NoMaster), probes)
    case Ok(Some(m)) =>
      var asked := probes + [PrimaryProbe(m)];
      match env.current
      case ExecFailure(msg) => (Aborted(Propagated(msg)), asked)
      case OtherFailure(msg) => (Aborted(Propagated(msg)), asked)
      case Answer(current) =>
        var (o, adds) := AddAll(env.add, Minus(hosts, current));
        (o, asked + adds)
  }

  /** The branch condition of line 179: the flush asks for presence and the set is not known to exist. */
  predicate InitiateBranch(intent: Intent, current: Option<Ensure>) {
    intent.ensure == Some(Present) && current != Some(Present)
  }

  /** `set_members`: how it ends and every command it issues, in order. */
  function Reconcile(name: string, intent: Intent, current: Option<Ensure>, env: Env): (Outcome, seq<Invocation>) {
    if intent.ensure == Some(Absent) then (Done, [])
    else if intent.members.None? then (Aborted(MembersNil), [])
    else
      var (live, asked) := LiveHosts(name, intent.members.value, env);
      match live
      case Err(e) => (Aborted(e), asked)
      case Ok(hosts) =>
        var (o, more) := if InitiateBranch(intent, current) then Initiate(name, hosts, env.initiate) else Extend(hosts, env);
        (o, asked + more)
  }

  /** Lines 158-177: the live-host list, probing only when authentication is off. */
  method ChooseHosts(name: string, members: seq<string>, env: Env) returns (live: Result<seq<string>, ReplsetError>, cmds: seq<Invocation>)
    ensures (live, cmds) == LiveHosts(name, members, env)
  {
    if members == [] {
      live, cmds := Ok([]), [];
      return;
    }
    cmds := [AuthQuery];
    match env.auth {
      case ExecFailure(m) =>
        live := Err(Propagated(m));
      case OtherFailure(m) =>
        live := Err(Propagated(m));
      case Answer(out) =>
        if AuthEnabled(out) {
          live := Ok(members);
        } else {
          var probes;
          live, probes := AliveMembers(name, env.status, members);
          cmds := cmds + probes;
          if live == Ok([]) {
            live := Err(NoMemberReachable);
          }
        }
    }
  }

  /** Lines 179-192: build the configuration and initiate the set with it. */
  method RunInitiate(name: string, hosts: seq<string>, reply: Reply<OkDoc>) returns (o: Outcome, cmds: seq<Invocation>)
    ensures (o, cmds) == Initiate(name, hosts, reply)
  {
    cmds := [InitiateCommand(ConfigText(name, hosts))];
    match reply {
      case Answer(doc) =>
        o := if doc.ok == Some(0) then Aborted(InitiateFailed(doc.errmsg)) else Done;
      case ExecFailure(m) =>
        o := Aborted(Propagated(m));
      case OtherFailure(m) =>
        o := Aborted(Propagated(m));
    }
  }

  /** Lines 193-207: find the master and add the hosts it does not list. */
  method RunExtend(hosts: seq<string>, env: Env) returns (o: Outcome, cmds: seq<Invocation>)
    ensures (o, cmds) == Extend(hosts, env)
  {
    var master;
    master, cmds := MasterHost(env.primary, hosts);
    if master.Err? {
      o := Aborted(master.error);
      return;
    }
    if master.value.None? {
      o := Aborted(NoMaster);
      return;
    }
    cmds := cmds + [PrimaryProbe(master.value.value)];
    match env.current {
      case ExecFailure(m) =>
        o := Aborted(Propagated(m));
      case OtherFailure(m) =>
        o := Aborted(Propagated(m));
      case Answer(current) =>
        var adds;
        o, adds := AddHosts(env.add, Minus(hosts, current));
        cmds := cmds + adds;
    }
  }

  /** `set_members` as the source runs it. */
  method SetMembers(name: string, intent: Intent, current: Option<Ensure>, env: Env) returns (o: Outcome, cmds: seq<Invocation>)
    ensures (o, cmds) == Reconcile(name, intent, current, env)
  {
    if intent.ensure == Some(Absent) {
      return Done, [];
    }
    if intent.members.None? {
      return Aborted(MembersNil), [];
    }
    var live;
    live, cmds := ChooseHosts(name, intent.members.value, env);
    if live.Err? {
      o := Aborted(live.error);
      return;
    }
    var more;
    if InitiateBranch(intent, current) {
      o, more := RunInitiate(name, live.value, env.initiate);
    } else {
      o, more := RunExtend(live.value, env);
    }
    cmds := cmds + more;
  }

  // ---------------------------------------------------------------- what set_members guarantees

  /** Some command in `cmds` is an `rs.initiate`. */
  predicate Initiates(cmds: seq<Invocation>) {
    exists k :: 0 <= k < |cmds| && IsInitiate(cmds[k])
  }

  lemma NoChangeConcat(a: seq<Invocation>, b: seq<Invocation>)
    requires NoChange(a) && NoChange(b)
    ensures NoChange(a + b)
  {
    forall k | 0 <= k < |a + b|
      ensures !IsInitiate((a + b)[k]) && !IsAdd((a + b)[k])
    {
      if k >= |a| { assert (a + b)[k] == b[k - |a|]; }
    }
  }

  lemma {:induction false} ProbesChangeNothing(hosts: seq<string>)
    ensures NoChange(StatusProbes(hosts)) && NoChange(PrimaryProbes(hosts))
  {
    if hosts != [] {
      CommandKinds(hosts[0], "");
      ProbesChangeNothing(hosts[1..]);
      NoChangeConcat([StatusProbe(hosts[0])], StatusProbes(hosts[1..]));
      NoChangeConcat([PrimaryProbe(hosts[0])], PrimaryProbes(hosts[1..]));
    }
  }

  lemma {:induction false} AddsNeverInitiate(hosts: seq<string>)
    ensures forall k :: 0 <= k < |AddCommands(hosts)| ==> IsAdd(AddCommands(hosts)[k]) && !IsInitiate(AddCommands(hosts)[k])
  {
    if hosts != [] {
      CommandKinds(hosts[0], "");
      AddsNeverInitiate(hosts[1..]);
      forall k | 0 <= k < |AddCommands(hosts)|
        ensures IsAdd(AddCommands(hosts)[k]) && !IsInitiate(AddCommands(hosts)[k])
      {
        if k > 0 { assert AddCommands(hosts)[k] == AddCommands(hosts[1..])[k - 1]; }
      }
    }
  }

  lemma AliveChangesNothing(name: string, status: string -> Reply<StatusDoc>, hosts: seq<string>)
    ensures NoChange(Alive(name, status, hosts).1)
  {
    AliveMeaning(name, status, hosts);
    ProbesChangeNothing(hosts[..Through(FirstAbort(name, status, hosts), |hosts|)]);
  }

  /** Choosing the live hosts only queries: it neither initiates nor adds. */
  lemma LiveHostsChangeNothing(name: string, members: seq<string>, env: Env)
    ensures NoChange(LiveHosts(name, members, env).1)
  {
    CommandKinds("", "");
    if members != [] && env.auth.Answer? && !AuthEnabled(env.auth.value) {
      var probes := Alive(name, env.status, members).1;
      AliveChangesNothing(name, env.status, members);
      NoChangeConcat([AuthQuery], probes);
      assert LiveHosts(name, members, env).1 == [AuthQuery] + probes;
    }
  }

  /** The add branch never initiates; it issues only queries and `rs.add` commands. */
  lemma ExtendNeverInitiates(hosts: seq<string>, env: Env)
    ensures !Initiates(Extend(hosts, env).1)
  {
    var (master, probes) := MasterSearch(env.primary, hosts);
    MasterSearchMeaning(env.primary, hosts);
    ProbesChangeNothing(hosts[..Through(FirstDecided(env.primary, hosts), |hosts|)]);
    if !(master.Ok? && master.value.Some?) {
      assert Extend(hosts, env).1 == probes;
    } else if !env.current.Answer? {
      var m := master.value.value;
      CommandKinds(m, "");
      assert Extend(hosts, env).1 == probes + [PrimaryProbe(m)];
      NoChangeConcat(probes, [PrimaryProbe(m)]);
    } else {
      var m := master.value.value;
      var newHosts := Minus(hosts, env.current.value);
      CommandKinds(m, "");
      AddAllMeaning(env.add, newHosts);
      AddsNeverInitiate(newHosts[..Through(FirstRejected(env.add, newHosts), |newHosts|)]);
      var cmds := Extend(hosts, env).1;
      var adds := AddAll(env.add, newHosts).1;
      assert cmds == (probes + [PrimaryProbe(m)]) + adds;
      forall k | 0 <= k < |cmds| ensures !IsInitiate(cmds[k]) {
        if k < |probes| {
          assert cmds[k] == probes[k];
        } else if k == |probes| {
          assert cmds[k] == PrimaryProbe(m);
        } else {
          assert cmds[k] == adds[k - |probes| - 1];
        }
      }
    }
  }

  /**
   * Once the live hosts are known, `set_members` initiates exactly when the flush asks
   * for presence and the set does not exist yet; the initiate is then its last command
   * and carries the configuration of the live hosts.
   */
  lemma InitiatesIff(name: string, intent: Intent, current: Option<Ensure>, env: Env)
    requires intent.ensure != Some(Absent) && intent.members.Some?
    requires LiveHosts(name, intent.members.value, env).0.Ok?
    ensures Initiates(Reconcile(name, intent, current, env).1) <==> InitiateBranch(intent, current)
    ensures var cmds := Reconcile(name, intent, current, env).1;
            InitiateBranch(intent, current) ==>
              cmds[|cmds| - 1] == InitiateCommand(ConfigText(name, LiveHosts(name, intent.members.value, env).0.value))
  {
    var (live, asked) := LiveHosts(name, intent.members.value, env);
    var cmds := Reconcile(name, intent, current, env).1;
    LiveHostsChangeNothing(name, intent.members.value, env);
    if InitiateBranch(intent, current) {
      var c := InitiateCommand(ConfigText(name, live.value));
      CommandKinds("", ConfigText(name, live.value));
      assert cmds == asked + [c];
      assert IsInitiate(cmds[|cmds| - 1]);
    } else {
      var more := Extend(live.value, env).1;
      ExtendNeverInitiates(live.value, env);
      assert cmds == asked + more;
      forall k | 0 <= k < |cmds| ensures !IsInitiate(cmds[k]) {
        if k >= |asked| { assert cmds[k] == more[k - |asked|]; }
      }
    }
  }

  /**
   * `set_members` changes nothing on the cluster when the flush says absent (and then
   * ends normally), when the member list is missing, or when choosing the live hosts fails.
   */
  lemma FailuresBeforeTheBranchChangeNothing(name: string, intent: Intent, current: Option<Ensure>, env: Env)
    requires intent.ensure == Some(Absent) || intent.members.None? || LiveHosts(name, intent.members.value, env).0.Err?
    ensures var (o, cmds) := Reconcile(name, intent, current, env);
            NoChange(cmds) && (o.Done? <==> intent.ensure == Some(Absent))
  {
    if intent.ensure != Some(Absent) && intent.members.Some? {
      LiveHostsChangeNothing(name, intent.members.value, env);
    }
  }

  /**
   * With authentication off, choosing the live hosts fails with "Can't connect to any
   * member" exactly when no host aborts the scan and none is kept.
   */
  lemma NoReachableMemberIff(name: string, members: seq<string>, env: Env)
    requires members != [] && env.auth.Answer? && !AuthEnabled(env.auth.value)
    ensures LiveHosts(name, members, env).0 == Err(NoMemberReachable) <==>
            FirstAbort(name, env.status, members) == |members| &&
            forall i :: 0 <= i < |members| ==> Judge(name, env.status, members[i]) == Drop
  {
    AliveMeaning(name, env.status, members);
    AliveKeeps(name, env.status, members);
    var alive := Alive(name, env.status, members).0;
    if FirstAbort(name, env.status, members) == |members| {
      if alive.value == [] {
        forall i | 0 <= i < |members| ensures Judge(name, env.status, members[i]) == Drop {
          assert members[i] in members;
        }
      } else {
        assert alive.value[0] in alive.value;
      }
    } else {
      var k := FirstAbort(name, env.status, members);
      assert Judge(name, env.status, members[k]) != Drop;
      if alive.Err? {
        assert Judge(name, env.status, members[k]).error != NoMemberReachable by {
          var h := members[k];
          match env.status(h)
          case ExecFailure(_) =>
          case OtherFailure(_) =>
          case Answer(_) =>
        }
      }
    }
  }

  /** With authentication on, the live hosts are the declared members, unprobed. */
  lemma AuthEnabledTrustsMembers(name: string, members: seq<string>, env: Env)
    requires members != [] && env.auth.Answer? && AuthEnabled(env.auth.value)
    ensures LiveHosts(name, members, env) == (Ok(members), [AuthQuery])
  {
  }

  /** With no members, an existing set always fails to find its master and issues nothing. */
  lemma EmptyMembersFindNoMaster(name: string, intent: Intent, current: Option<Ensure>, env: Env)
    requires intent.members == Some([]) && intent.ensure != Some(Absent) && !InitiateBranch(intent, current)
    ensures Reconcile(name, intent, current, env) == (Aborted(NoMaster), [])
  {
    assert LiveHosts(name, [], env) == (Ok([]), []);
    assert MasterSearch(env.primary, []) == (Ok(None), []);
    assert Extend([], env) == (Aborted(NoMaster), []);
    var empty: seq<Invocation> := [];
    assert empty + empty == empty;
    assert Reconcile(name, intent, current, env) == (Aborted(NoMaster), empty + empty);
  }

  /**
   * In the add branch only hosts the master does not list are added, each once per
   * occurrence, in live-list order; when it lists every live host nothing is added.
   */
  lemma ExtendAddsOnlyNewHosts(hosts: seq<string>, env: Env, m: string, current: seq<string>)
    requires MasterSearch(env.primary, hosts).0 == Ok(Some(m)) && env.current == Answer(current)
    ensures var cmds := Extend(hosts, env).1;
            var asked := MasterSearch(env.primary, hosts).1 + [PrimaryProbe(m)];
            var newHosts := Minus(hosts, current);
            && |asked| <= |cmds| <= |asked| + |newHosts|
            && cmds[..|asked|] == asked
            && cmds[|asked|..] == AddCommands(newHosts[..|cmds| - |asked|])
            && (forall h :: h in newHosts <==> h in hosts && h !in current)
            && ((forall h :: h in hosts ==> h in current) ==> Extend(hosts, env) == (Done, asked))
  {
    var newHosts := Minus(hosts, current);
    var asked := MasterSearch(env.primary, hosts).1 + [PrimaryProbe(m)];
    var adds := AddAll(env.add, newHosts).1;
    AddAllMeaning(env.add, newHosts);
    assert Extend(hosts, env).1 == asked + adds;
    assert |adds| == Through(FirstRejected(env.add, newHosts), |newHosts|) by {
      AddCommandsLength(newHosts[..Through(FirstRejected(env.add, newHosts), |newHosts|)]);
    }
    assert (asked + adds)[|asked|..] == adds && (asked + adds)[..|asked|] == asked;
    MinusEmptyIff(hosts, current);
    if newHosts == [] {
      assert adds == [] && asked + adds == asked;
    }
  }

  lemma {:induction false} AddCommandsLength(hosts: seq<string>)
    ensures |AddCommands(hosts)| == |hosts|
  {
    if hosts != [] { AddCommandsLength(hosts[1..]); }
  }

  // ---------------------------------------------------------------- get_replset_properties and instances

  /** The provider's `@property_hash`: `:ensure`, `:name` and `:members`, None where a key is absent. */
  datatype Properties = Properties(ensure: Option<Ensure>, name: Option<string>, members: Option<seq<string>>)

  /** The `host` of each entry of `rs.conf().members`, in order. */
  function MemberHosts(ms: seq<MemberDoc>): (hs: seq<string>)
    ensures |hs| == |ms| && forall i :: 0 <= i < |ms| ==> hs[i] == ms[i].host
  {
    if ms == [] then [] else [ms[0].host] + MemberHosts(ms[1..])
  }

  /** `get_replset_properties` once `rs.conf()` has answered: nil without a `members` key. */
  function ReplsetProperties(conf: ConfDoc): Option<Properties> {
    match conf.members
    case None => None
    case Some(ms) => Some(Properties(Some(Present), conf.id, Some(MemberHosts(ms))))
  }

  /**
   * `instances`: the replica set this node reports, if any. There is at most one; it
   * exists iff `rs.conf()` has `members`, and then it is present, is named by `_id`
   * and lists the members' hosts in order. A failing `rs.conf()` propagates.
   */
  function Instances(conf: Reply<ConfDoc>): (r: Result<seq<Properties>, ReplsetError>)
    ensures r.Ok? <==> conf.Answer?
    ensures r.Ok? ==> |r.value| <= 1 && (|r.value| == 1 <==> conf.value.members.Some?)
    ensures r.Ok? && |r.value| == 1 ==>
              var p := r.value[0];
              var ms := conf.value.members.value;
              && p.ensure == Some(Present) && p.name == conf.value.id
              && p.members.Some? && |p.members.value| == |ms|
              && forall i :: 0 <= i < |ms| ==> p.members.value[i] == ms[i].host
  {
    match conf
    case ExecFailure(m) => Err(Propagated(m))
    case OtherFailure(m) => Err(Propagated(m))
    case Answer(doc) =>
      match ReplsetProperties(doc)
      case None => Ok([])
      case Some(p) => Ok([p])
  }

  // ---------------------------------------------------------------- the provider object

  /**
   * One `mongodb_replset` provider. `intent` is `@property_flush`, `properties` is
   * `@property_hash` (None once a flush found no `members`), and `issued` is every
   * `mongo_command` call this provider has made, in order.
   */
  class ReplsetProvider {
    const name: string
    /** `resource.should(:members)`: the members the manifest declares, if any. */
    const declared: Option<seq<string>>
    var intent: Intent
    var properties: Option<Properties>
    var issued: seq<Invocation>

    /** `initialize`: starts with an empty `@property_flush` and the hash it was built from. */
    constructor (name: string, declared: Option<seq<string>>, found: Properties)
      ensures this.name == name && this.declared == declared
      ensures intent == Intent(None, None) && properties == Some(found) && issued == []
    {
      this.name := name;
      this.declared := declared;
      intent := Intent(None, None);
      properties := Some(found);
      issued := [];
    }

    /** `members=`: records the hosts to flush; nothing is run. */
    method AssignMembers(hosts: seq<string>)
      modifies this`intent
      ensures intent == old(intent).(members := Some(hosts))
    {
      intent := intent.(members := Some(hosts));
    }

    /** `create`: records presence and the declared members; nothing is run. */
    method Create()
      modifies this`intent
      ensures intent == old(intent).(ensure := Some(Present), members := declared)
    {
      intent := intent.(ensure := Some(Present), members := declared);
    }

    /** `destroy`: records absence; nothing is run. */
    method Destroy()
      modifies this`intent
      ensures intent == old(intent).(ensure := Some(Absent))
    {
      intent := intent.(ensure := Some(Absent));
    }

    /** `exists?`: whether the hash says present; None where the hash is nil and `[]` raises. */
    function Exists(): (r: Option<bool>)
      reads this
      ensures r.None? <==> properties.None?
      ensures r == Some(true) <==> properties.Some? && properties.value.ensure == Some(Present)
    {
      match properties
      case None => None
      case Some(p) => Some(p.ensure == Some(Present))
    }

    /**
     * `flush`: `set_members`, then `@property_hash` re-read from `rs.conf()`. An exception
     * from `set_members` leaves the hash as it was and skips the re-read.
     */
    method Flush(env: Env, conf: Reply<ConfDoc>) returns (o: Outcome)
      requires properties.Some?
      modifies this`issued, this`properties
      ensures var (r, cmds) := Reconcile(name, intent, old(properties).value.ensure, env);
              && o == (if r.Aborted? then r else if conf.Answer? then Done else Aborted(Propagated(conf.message)))
              && issued == old(issued) + cmds + (if r.Done? then [ConfQuery] else [])
              && properties == (if r.Done? && conf.Answer? then ReplsetProperties(conf.value) else old(properties))
    {
      var cmds;
      o, cmds := SetMembers(name, intent, properties.value.ensure, env);
      issued := issued + cmds;
      if o.Aborted? {
        return;
      }
      issued := issued + [ConfQuery];
      match conf {
        case Answer(doc) =>
          properties := ReplsetProperties(doc);
        case ExecFailure(m) =>
          o := Aborted(Propagated(m));
        case OtherFailure(m) =>
          o := Aborted(Propagated(m));
      }
    }
  }
}
