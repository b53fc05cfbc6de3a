/** Turning ranked records into Stremio stream objects (index.js): the choice
    of locator for a queue task, `streamFromMagnet` with its `toStream`, and the
    serial queue that collects the streams. Redirect following, torrent parsing
    and the scaling part of `formatBytes` are collaborators given as functions. */
module Streams {
  import opened JsValues
  import opened Torznab

  /** What parse-torrent yields: info hash, announce list (may be missing) and name. */
  datatype Torrent = Torrent(infoHash: string, announce: Option<seq<string>>, name: Option<string>)

  /** A stream object; `sources` is absent when there is no tracker. */
  datatype Stream = Stream(
    name: Option<Value>,
    kind: string,
    infoHash: string,
    title: string,
    sources: Option<seq<string>>)

  /** The collaborators of the queue worker. `parseMagnet` is `parseTorrent`
      on a magnet URI (None when it throws), `fetchTorrent` is
      `parseTorrent.remote` (None for its error callback), `scaledSize` is
      `formatBytes` past its zero test. */
  datatype Resolver = Resolver(
    followRedirect: string -> string,
    parseMagnet: string -> Option<Torrent>,
    fetchTorrent: string -> Option<Torrent>,
    scaledSize: Value -> string)

  /** `tor[key]`. */
  function Field(rec: Record, key: string): Option<Value>
  {
    if key in rec then Some(rec[key]) else None
  }

  predicate ValueTruthy(v: Option<Value>)
  {
    match v
    case None => false
    case Some(Str(s)) => s != ""
    case Some(Num(n)) => n.Int? && n.i != 0
  }

  /** The string JavaScript concatenation makes of a property value. */
  function Text(v: Option<Value>): string
  {
    match v
    case None => "undefined"
    case Some(Str(s)) => s
    case Some(Num(n)) => NumberString(n)
  }

  /** The queue task's locator: `task.magneturl || task.link`, or none. */
  function Locator(task: Record): (url: Option<string>)
    ensures url.None? <==> !ValueTruthy(Field(task, "magneturl")) && !ValueTruthy(Field(task, "link"))
    ensures ValueTruthy(Field(task, "magneturl")) ==> url == Some(Text(Field(task, "magneturl")))
    ensures !ValueTruthy(Field(task, "magneturl")) && ValueTruthy(Field(task, "link")) ==>
      url == Some(Text(Field(task, "link")))
  {
    if ValueTruthy(Field(task, "magneturl")) then Some(Text(Field(task, "magneturl")))
    else if ValueTruthy(Field(task, "link")) then Some(Text(Field(task, "link")))
    else None
  }

  /** `formatBytes(size)`: "0 Bytes" for an undefined, NaN or zero size; the
      scaling of any other size is left to the collaborator. */
  function FormatBytes(size: Option<Value>, r: Resolver): string
  {
    match size
    case None => "0 Bytes"
    case Some(Num(NaN)) => "0 Bytes"
    case Some(Num(Int(0))) => "0 Bytes"
    case Some(v) => r.scaledSize(v)
  }

  const SizeMark: string := "\U{1F4C0} "
  const SeedMark: string := "\U{1F6F0}\U{FE0F} "
  const TagMark: string := "\U{1F48E} "

  /** `tor.title || parsed.name`, as a string. */
  function Heading(tor: Record, parsed: Torrent): string
  {
    if ValueTruthy(Field(tor, "title")) then Text(Field(tor, "title"))
    else if parsed.name.Some? then parsed.name.value
    else "undefined"
  }

  function SizeLine(tor: Record, r: Resolver): string
  {
    SizeMark + FormatBytes(Field(tor, "size"), r)
  }

  function SeedLine(tor: Record): string
  {
    SeedMark + Text(Field(tor, "seeders"))
  }

  function TagLine(tor: Record): string
  {
    TagMark + Text(Field(tor, "extraTag"))
  }

  /** The stream title: the heading, then the size, seeders and match-tag
      lines, each after a "\r\n". */
  function StreamTitle(tor: Record, parsed: Torrent, r: Resolver): string
  {
    Heading(tor, parsed) + "\r\n" + SizeLine(tor, r) + "\r\n" + SeedLine(tor) + "\r\n" + TagLine(tor)
  }

  lemma {:induction false} CrLfLines(a: string, b: string, c: string, d: string)
    requires '\n' !in a && '\n' !in b && '\n' !in c && '\n' !in d
    ensures Split(a + "\r\n" + b + "\r\n" + c + "\r\n" + d, '\n') == [a + "\r", b + "\r", c + "\r", d]
  {
    var a', b', c' := a + "\r", b + "\r", c + "\r";
    assert '\n' !in a' && '\n' !in b' && '\n' !in c';
    assert a + "\r\n" + b + "\r\n" + c + "\r\n" + d == a' + ['\n'] + (b' + ['\n'] + (c' + ['\n'] + d));
    SplitWithoutSeparator(d, '\n');
    SplitAfterPiece(c', '\n', d);
    SplitAfterPiece(b', '\n', c' + ['\n'] + d);
    SplitAfterPiece(a', '\n', b' + ['\n'] + (c' + ['\n'] + d));
  }

  /** When no part holds a line feed of its own, the title reads as exactly
      four lines: the heading and three more, each but the last ending in "\r". */
  lemma TitleLines(tor: Record, parsed: Torrent, r: Resolver)
    requires '\n' !in Heading(tor, parsed) && '\n' !in SizeLine(tor, r)
    requires '\n' !in SeedLine(tor) && '\n' !in TagLine(tor)
    ensures Split(StreamTitle(tor, parsed, r), '\n')
      == [Heading(tor, parsed) + "\r", SizeLine(tor, r) + "\r", SeedLine(tor) + "\r", TagLine(tor)]
  {
    CrLfLines(Heading(tor, parsed), SizeLine(tor, r), SeedLine(tor), TagLine(tor));
  }

  /** DHT stays on unless `dhtEnabled` is set to something other than "True". */
  predicate DhtOn(dhtEnabled: Option<string>)
  {
    !Truthy(dhtEnabled) || dhtEnabled == Some("True")
  }

  /** The `sources` list: each announce URL as a "tracker:" entry, in order,
      then one "dht:" entry when there is at least one tracker and DHT is on. */
  function Trackers(announce: Option<seq<string>>, infoHash: string, dhtEnabled: Option<string>): (t: seq<string>)
    ensures var urls := if announce.Some? then announce.value else [];
      && |t| == |urls| + (if |urls| > 0 && DhtOn(dhtEnabled) then 1 else 0)
      && (forall i :: 0 <= i < |urls| ==> t[i] == "tracker:" + urls[i])
      && (|t| > |urls| ==> t[|urls|] == "dht:" + infoHash)
  {
    var urls := if announce.Some? then announce.value else [];
    var trackers := seq(|urls|, i requires 0 <= i < |urls| => "tracker:" + urls[i]);
    if |trackers| > 0 && DhtOn(dhtEnabled) then trackers + ["dht:" + infoHash] else trackers
  }

  /** Two announce URLs give two trackers and, unless DHT is switched off,
      the DHT entry last. */
  lemma TwoTrackers(a: string, b: string, infoHash: string)
    ensures Trackers(Some([a, b]), infoHash, None) == ["tracker:" + a, "tracker:" + b, "dht:" + infoHash]
    ensures Trackers(Some([a, b]), infoHash, Some("True")) == ["tracker:" + a, "tracker:" + b, "dht:" + infoHash]
    ensures Trackers(Some([a, b]), infoHash, Some("False")) == ["tracker:" + a, "tracker:" + b]
    ensures Trackers(None, infoHash, None) == []
  {
  }

  /** `toStream`: the stream object for a record and its parsed torrent. */
  function ToStream(tor: Record, parsed: Torrent, kind: string, dhtEnabled: Option<string>, r: Resolver): (s: Stream)
    ensures s.infoHash == LowerAscii(parsed.infoHash) && NoUpper(s.infoHash)
    ensures s.name == Field(tor, "from") && s.kind == kind
    ensures s.sources.Some? <==> parsed.announce.Some? && |parsed.announce.value| > 0
    ensures s.sources.Some? ==> s.sources.value == Trackers(parsed.announce, s.infoHash, dhtEnabled)
    ensures s.title == StreamTitle(tor, parsed, r)
  {
    var infoHash := LowerAscii(parsed.infoHash);
    var trackers := Trackers(parsed.announce, infoHash, dhtEnabled);
    Stream(Field(tor, "from"), kind, infoHash, StreamTitle(tor, parsed, r),
           if |trackers| > 0 then Some(trackers) else None)
  }

  /** What the worker makes of one task: a stream, nothing (no locator, or
      the remote fetch failed, after which the worker moves on), or an
      exception from `parseTorrent` that nothing catches, after which the
      worker never calls back. */
  datatype Outcome = Emitted(stream: Stream) | Skipped | Threw

  /** `streamFromMagnet`: a magnet URI is parsed in place, anything else is
      fetched as a torrent file. */
  function StreamFromUri(tor: Record, uri: string, kind: string, dhtEnabled: Option<string>, r: Resolver): Outcome
  {
    if StartsWith(uri, "magnet:?") then
      match r.parseMagnet(uri)
      case None => Threw
      case Some(parsed) => Emitted(ToStream(tor, parsed, kind, dhtEnabled, r))
    else
      match r.fetchTorrent(uri)
      case None => Skipped
      case Some(parsed) => Emitted(ToStream(tor, parsed, kind, dhtEnabled, r))
  }

  /** A magnet URI goes to `parseTorrent`, whose failure is a throw; any other
      URI goes to the remote fetch, whose failure only skips the task; a parsed
      torrent gives its stream either way. */
  lemma StreamFromUriCases(tor: Record, uri: string, kind: string, dhtEnabled: Option<string>, r: Resolver)
    ensures var o := StreamFromUri(tor, uri, kind, dhtEnabled, r);
      StartsWith(uri, "magnet:?") ==>
        && (o.Threw? <==> r.parseMagnet(uri).None?)
        && (r.parseMagnet(uri).Some? ==> o == Emitted(ToStream(tor, r.parseMagnet(uri).value, kind, dhtEnabled, r)))
    ensures var o := StreamFromUri(tor, uri, kind, dhtEnabled, r);
      !StartsWith(uri, "magnet:?") ==>
        && !o.Threw?
        && (o.Skipped? <==> r.fetchTorrent(uri).None?)
        && (r.fetchTorrent(uri).Some? ==> o == Emitted(ToStream(tor, r.fetchTorrent(uri).value, kind, dhtEnabled, r)))
  {
  }

  /** One run of the queue worker: nothing without a locator; otherwise the
      outcome for the locator after its redirects. */
  function RunTask(task: Record, kind: string, dhtEnabled: Option<string>, r: Resolver): Outcome
  {
    match Locator(task)
    case None => Skipped
    case Some(url) => StreamFromUri(task, r.followRedirect(url), kind, dhtEnabled, r)
  }

  predicate Throws(task: Record, kind: string, dhtEnabled: Option<string>, r: Resolver)
  {
    RunTask(task, kind, dhtEnabled, r).Threw?
  }

  /** The `streams` array after the worker has run the tasks in order, every
      one of them calling back. */
  function StreamsFor(tasks: seq<Record>, kind: string, dhtEnabled: Option<string>, r: Resolver): seq<Stream>
  {
    if tasks == [] then []
    else
      var out := RunTask(tasks[|tasks| - 1], kind, dhtEnabled, r);
      StreamsFor(tasks[..|tasks| - 1], kind, dhtEnabled, r) + (if out.Emitted? then [out.stream] else [])
  }

  /** The number of tasks the worker finishes: all of them, or those before
      the first one whose `parseTorrent` throws. */
  function FirstThrow(tasks: seq<Record>, kind: string, dhtEnabled: Option<string>, r: Resolver): (k: nat)
    ensures k <= |tasks|
    ensures forall j :: 0 <= j < k ==> !Throws(tasks[j], kind, dhtEnabled, r)
    ensures k == |tasks| || Throws(tasks[k], kind, dhtEnabled, r)
  {
    if tasks == [] || Throws(tasks[0], kind, dhtEnabled, r) then 0
    else
      var k := 1 + FirstThrow(tasks[1..], kind, dhtEnabled, r);
      assert forall j :: 1 <= j < k ==> tasks[j] == tasks[1..][j - 1];
      k
  }

  /** The queue after the tasks were pushed: the streams collected and whether
      `drain` ran, which it does only when every task called back. */
  datatype QueueRun = QueueRun(streams: seq<Stream>, drained: bool)

  function Queue(tasks: seq<Record>, kind: string, dhtEnabled: Option<string>, r: Resolver): QueueRun
  {
    var k := FirstThrow(tasks, kind, dhtEnabled, r);
    QueueRun(StreamsFor(tasks[..k], kind, dhtEnabled, r), k == |tasks|)
  }

  /** The worker stops exactly at the first throwing task. */
  lemma {:induction false} FirstThrowAt(tasks: seq<Record>, kind: string, dhtEnabled: Option<string>, r: Resolver, i: nat)
    requires i <= |tasks| && (i == |tasks| || Throws(tasks[i], kind, dhtEnabled, r))
    requires forall j :: 0 <= j < i ==> !Throws(tasks[j], kind, dhtEnabled, r)
    ensures FirstThrow(tasks, kind, dhtEnabled, r) == i
  {
    if i > 0 {
      assert !Throws(tasks[0], kind, dhtEnabled, r);
      var rest := tasks[1..];
      assert forall j :: 0 <= j < i - 1 ==> rest[j] == tasks[j + 1];
      FirstThrowAt(rest, kind, dhtEnabled, r, i - 1);
    }
  }

  /** At most one stream per task, in task order; a task without a locator
      adds none; every stream has a lower-case hash and no empty source list. */
  lemma {:induction false} StreamsForProperties(tasks: seq<Record>, kind: string, dhtEnabled: Option<string>, r: Resolver)
    ensures |StreamsFor(tasks, kind, dhtEnabled, r)| <= |tasks|
    ensures forall s :: s in StreamsFor(tasks, kind, dhtEnabled, r) ==>
      NoUpper(s.infoHash) && s.kind == kind && (s.sources.Some? ==> |s.sources.value| > 0)
    ensures (forall i :: 0 <= i < |tasks| ==> Locator(tasks[i]).None?) ==> StreamsFor(tasks, kind, dhtEnabled, r) == []
  {
    if tasks != [] {
      StreamsForProperties(tasks[..|tasks| - 1], kind, dhtEnabled, r);
    }
  }

  lemma {:induction false} StreamsForConcat(a: seq<Record>, b: seq<Record>, kind: string, dhtEnabled: Option<string>, r: Resolver)
    ensures StreamsFor(a + b, kind, dhtEnabled, r) == StreamsFor(a, kind, dhtEnabled, r) + StreamsFor(b, kind, dhtEnabled, r)
  {
    if b != [] {
      assert (a + b)[..|a + b| - 1] == a + b[..|b| - 1];
      StreamsForConcat(a, b[..|b| - 1], kind, dhtEnabled, r);
    } else {
      assert a + b == a;
    }
  }

  /** The queue drains exactly when no task throws, and then holds the streams
      of all tasks; a throw keeps the streams of the tasks before it. */
  lemma QueueProperties(tasks: seq<Record>, kind: string, dhtEnabled: Option<string>, r: Resolver)
    ensures Queue(tasks, kind, dhtEnabled, r).drained <==> forall i :: 0 <= i < |tasks| ==> !Throws(tasks[i], kind, dhtEnabled, r)
    ensures Queue(tasks, kind, dhtEnabled, r).drained ==> Queue(tasks, kind, dhtEnabled, r).streams == StreamsFor(tasks, kind, dhtEnabled, r)
    ensures forall i :: (0 <= i < |tasks| && Throws(tasks[i], kind, dhtEnabled, r) && (forall j :: 0 <= j < i ==> !Throws(tasks[j], kind, dhtEnabled, r))
      ==> !Queue(tasks, kind, dhtEnabled, r).drained && Queue(tasks, kind, dhtEnabled, r).streams == StreamsFor(tasks[..i], kind, dhtEnabled, r))
    ensures |Queue(tasks, kind, dhtEnabled, r).streams| <= |tasks|
  {
    var k := FirstThrow(tasks, kind, dhtEnabled, r);
    StreamsForProperties(tasks[..k], kind, dhtEnabled, r);
    assert tasks[..|tasks|] == tasks;
    forall i | 0 <= i < |tasks| && Throws(tasks[i], kind, dhtEnabled, r) && (forall j :: 0 <= j < i ==> !Throws(tasks[j], kind, dhtEnabled, r))
      ensures !Queue(tasks, kind, dhtEnabled, r).drained && Queue(tasks, kind, dhtEnabled, r).streams == StreamsFor(tasks[..i], kind, dhtEnabled, r)
    {
      FirstThrowAt(tasks, kind, dhtEnabled, r, i);
    }
  }

  /** One more task run adds its stream, if any, to the end. */
  lemma QueueStep(tasks: seq<Record>, i: nat, kind: string, dhtEnabled: Option<string>, r: Resolver)
    requires i < |tasks|
    ensures var out := RunTask(tasks[i], kind, dhtEnabled, r);
      StreamsFor(tasks[..i + 1], kind, dhtEnabled, r) == StreamsFor(tasks[..i], kind, dhtEnabled, r) + (if out.Emitted? then [out.stream] else [])
  {
    assert tasks[..i + 1][..i] == tasks[..i];
  }

  /** Past a run of non-throwing tasks, the next task either is the first
      throw or extends the run. */
  lemma FirstThrowStep(tasks: seq<Record>, i: nat, kind: string, dhtEnabled: Option<string>, r: Resolver)
    requires i < |tasks| && i <= FirstThrow(tasks, kind, dhtEnabled, r)
    ensures RunTask(tasks[i], kind, dhtEnabled, r).Threw? ==> FirstThrow(tasks, kind, dhtEnabled, r) == i
    ensures !RunTask(tasks[i], kind, dhtEnabled, r).Threw? ==> i + 1 <= FirstThrow(tasks, kind, dhtEnabled, r)
  {
  }

  /** The queue's worker for one task: follow the redirect of the task's
      locator and make a stream of where it leads. */
  method Worker(task: Record, kind: string, dhtEnabled: Option<string>, r: Resolver) returns (outcome: Outcome)
    ensures outcome == RunTask(task, kind, dhtEnabled, r)
  {
    outcome := Skipped;
    if ValueTruthy(Field(task, "magneturl")) || ValueTruthy(Field(task, "link")) {
      var url := if ValueTruthy(Field(task, "magneturl")) then Text(Field(task, "magneturl")) else Text(Field(task, "link"));
      var target := r.followRedirect(url);
      outcome := StreamFromUri(task, target, kind, dhtEnabled, r);
    }
  }

  /** The queue worker run over the tasks one at a time (concurrency 1); a
      throw ends the run without `drain`. */
  method ProcessQueue(tasks: seq<Record>, kind: string, dhtEnabled: Option<string>, r: Resolver)
    returns (streams: seq<Stream>, drained: bool)
    ensures QueueRun(streams, drained) == Queue(tasks, kind, dhtEnabled, r)
  {
    streams := [];
    var i := 0;
    while i < |tasks|
      invariant i <= FirstThrow(tasks, kind, dhtEnabled, r)
      invariant streams == StreamsFor(tasks[..i], kind, dhtEnabled, r)
    {
      var outcome := Worker(tasks[i], kind, dhtEnabled, r);
      FirstThrowStep(tasks, i, kind, dhtEnabled, r);
      if outcome.Threw? {
        drained := false;
        return;
      }
      QueueStep(tasks, i, kind, dhtEnabled, r);
      if outcome.Emitted? {
        streams := streams + [outcome.stream];
      }
      i := i + 1;
    }
    drained := true;
  }
}
