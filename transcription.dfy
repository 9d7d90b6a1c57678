/**
 * The recognition session of the meeting transcriber (meeting-transcriber/transcription.js):
 * a restart-resilient wrapper around the platform speech engine, and the append-only
 * utterance store with its text, SRT and structured exports and its statistics.
 *
 * The engine itself is outside the model. Its events (result, error, end) are method
 * calls, and the outcome of asking it to start is a parameter. The two `setTimeout`
 * timers are explicit steps. `onend` arms a 300 ms restart timer (pendingRestarts), and
 * `FireRestartTimer` is that timer going off. A failed start arms a 500 ms retry timer
 * (pendingRetries), and `FireRetryTimer` is that one going off. The callbacks the
 * application registers (onResult, onInterim, onError, onEnd) become return values.
 * Clock readings (`Date.now()`) are parameters.
 */
module Transcription {
  import opened Wrappers
  import opened Text
  import opened TimeFormat

  // ---------------------------------------------------------------------------
  // Utterances and engine results

  /** A finalised utterance as the store holds it. */
  datatype Utterance = Utterance(
    id: nat,
    text: string,
    timestamp: nat,
    confidence: real,
    speakerId: Option<string>,
    speakerName: Option<string>,
    isFinal: bool)

  /** The transient preview (`currentUtterance`) an interim result leaves. */
  datatype Interim = Interim(text: string, timestamp: nat)

  /** One entry of the engine's result list: its first alternative, and whether it is final. */
  datatype Span = Span(transcript: string, confidence: real, isFinal: bool)

  /** JavaScript truthiness of a nullable string: neither null nor "". */
  predicate Truthy(s: Option<string>) { s.Some? && s.value != "" }

  /** The label used wherever an utterance has no speaker name (`u.speakerName || '話者'`). */
  const DefaultSpeaker: string := "話者"

  function DisplayName(name: Option<string>): string
  {
    if Truthy(name) then name.value else DefaultSpeaker
  }

  /** The id discipline of the store: every utterance's id is its position. */
  predicate Indexed(us: seq<Utterance>) {
    forall k :: 0 <= k < |us| ==> us[k].id == k
  }

  /** A span that `handleResult` acts on: its trimmed transcript is not empty. */
  predicate Heard(s: Span) { Trim(s.transcript) != [] }

  /** The number of spans that become utterances. */
  function CountFinal(spans: seq<Span>): nat
  {
    if spans == [] then 0
    else CountFinal(spans[..|spans| - 1]) + (var s := spans[|spans| - 1]; if Heard(s) && s.isFinal then 1 else 0)
  }

  /**
   * What `handleResult` works on: the store, the preview (`currentUtterance`), and the
   * previews handed to `onInterim` so far.
   */
  datatype Effect = Effect(store: seq<Utterance>, preview: Option<Interim>, shown: seq<Interim>)

  /**
   * One span of a result event, stamped ts. A blank span changes nothing. A final span is
   * appended with the store's length as its id and clears the preview. An interim span
   * replaces the preview and is handed to `onInterim`.
   */
  function Step(e: Effect, s: Span, ts: nat): Effect
  {
    var text := Trim(s.transcript);
    if text == [] then e
    else if s.isFinal then Effect(e.store + [Utterance(|e.store|, text, ts, s.confidence, None, None, true)], None, e.shown)
    else Effect(e.store, Some(Interim(text, ts)), e.shown + [Interim(text, ts)])
  }

  /** A whole result event: its spans in order. */
  function Run(e: Effect, spans: seq<Span>, ts: nat): Effect
  {
    if spans == [] then e else Step(Run(e, spans[..|spans| - 1], ts), spans[|spans| - 1], ts)
  }

  /**
   * What one result event appends: exactly one utterance per final, non-blank span, in
   * span order, with ids continuing from the store's length, trimmed non-empty text, the
   * shared timestamp, no speaker yet, and isFinal set; what was there is kept.
   */
  lemma {:induction false} RunShape(e: Effect, spans: seq<Span>, ts: nat)
    ensures var r := Run(e, spans, ts);
      && |r.store| == |e.store| + CountFinal(spans)
      && r.store[..|e.store|] == e.store
      && forall k :: |e.store| <= k < |r.store| ==>
           && r.store[k].id == k
           && r.store[k].text != [] && Trim(r.store[k].text) == r.store[k].text
           && r.store[k].timestamp == ts
           && r.store[k].speakerId.None? && r.store[k].speakerName.None?
           && r.store[k].isFinal
  {
    if spans != [] {
      RunShape(e, spans[..|spans| - 1], ts);
      TrimIdempotent(spans[|spans| - 1].transcript);
    }
  }

  /** Interim and blank spans never add an utterance. */
  lemma {:induction false} NoFinalNoUtterance(e: Effect, spans: seq<Span>, ts: nat)
    requires forall k :: 0 <= k < |spans| ==> !spans[k].isFinal || !Heard(spans[k])
    ensures Run(e, spans, ts).store == e.store
  {
    if spans != [] {
      NoFinalNoUtterance(e, spans[..|spans| - 1], ts);
    }
  }

  /** The preview an event leaves: cleared by a final last non-blank span, that span's text otherwise. */
  lemma {:induction false} RunPreview(e: Effect, spans: seq<Span>, ts: nat, k: nat)
    requires k < |spans| && Heard(spans[k])
    requires forall j :: k < j < |spans| ==> !Heard(spans[j])
    ensures Run(e, spans, ts).preview
            == if spans[k].isFinal then None else Some(Interim(Trim(spans[k].transcript), ts))
  {
    if k < |spans| - 1 {
      RunPreview(e, spans[..|spans| - 1], ts, k);
    }
  }

  /** A result event keeps the store's ids equal to positions. */
  lemma RunKeepsIndexed(e: Effect, spans: seq<Span>, ts: nat)
    requires Indexed(e.store)
    ensures Indexed(Run(e, spans, ts).store)
  {
    RunShape(e, spans, ts);
    var r := Run(e, spans, ts);
    forall k | 0 <= k < |e.store|
      ensures r.store[k].id == k
    {
      assert r.store[k] == r.store[..|e.store|][k];
    }
  }

  /** Ids equal to positions are unique and strictly increasing. */
  lemma IndexedIdsIncrease(us: seq<Utterance>, j: nat, k: nat)
    requires Indexed(us) && j < k < |us|
    ensures us[j].id < us[k].id
  {
  }

  // ---------------------------------------------------------------------------
  // Statistics (`getStats`)

  datatype Stats = Stats(totalUtterances: nat, totalChars: nat, speakerCount: nat, duration: int)

  function TotalChars(us: seq<Utterance>): nat
  {
    if us == [] then 0 else TotalChars(us[..|us| - 1]) + |us[|us| - 1].text|
  }

  /** The distinct speaker ids that are set (`filter(Boolean)` drops null and ""). */
  function SpeakerIds(us: seq<Utterance>): set<string>
  {
    if us == [] then {}
    else
      var u := us[|us| - 1];
      SpeakerIds(us[..|us| - 1]) + (if Truthy(u.speakerId) then {u.speakerId.value} else {})
  }

  /** `getStats()` of a store; the duration is 0 while the start time is unset (or 0, which is falsy). */
  function GetStats(us: seq<Utterance>, startTime: Option<int>, now: int): Stats
  {
    var duration := if startTime.Some? && startTime.value != 0 then now - startTime.value else 0;
    Stats(|us|, TotalChars(us), |SpeakerIds(us)|, duration)
  }

  /** Character counts add up over concatenation of stores. */
  lemma {:induction false} TotalCharsAppend(a: seq<Utterance>, b: seq<Utterance>)
    ensures TotalChars(a + b) == TotalChars(a) + TotalChars(b)
    decreases |b|
  {
    if b != [] {
      assert (a + b)[..|a + b| - 1] == a + b[..|b| - 1];
      assert (a + b)[|a + b| - 1] == b[|b| - 1];
      TotalCharsAppend(a, b[..|b| - 1]);
    } else {
      assert a + b == a;
    }
  }

  /** Every counted speaker id is the id of some utterance in the store. */
  lemma {:induction false} SpeakerIdsOccur(us: seq<Utterance>, id: string)
    ensures id in SpeakerIds(us) <==> exists k :: 0 <= k < |us| && us[k].speakerId == Some(id) && id != ""
  {
    if us != [] {
      SpeakerIdsOccur(us[..|us| - 1], id);
      var p := us[..|us| - 1];
      if exists k :: 0 <= k < |p| && p[k].speakerId == Some(id) && id != "" {
        var k :| 0 <= k < |p| && p[k].speakerId == Some(id) && id != "";
        assert us[k] == p[k];
      }
      if exists k :: 0 <= k < |us| && us[k].speakerId == Some(id) && id != "" {
        var k :| 0 <= k < |us| && us[k].speakerId == Some(id) && id != "";
        if k < |p| { assert p[k] == us[k]; }
      }
    }
  }

  /** There are never more distinct speakers than utterances. */
  lemma {:induction false} SpeakerCountBound(us: seq<Utterance>)
    ensures GetStats(us, None, 0).speakerCount <= |us|
    ensures |SpeakerIds(us)| <= |us|
  {
    if us != [] {
      SpeakerCountBound(us[..|us| - 1]);
    }
  }

  // ---------------------------------------------------------------------------
  // Exports

  /** `Array.prototype.join(sep)`. */
  function Join(parts: seq<string>, sep: string): string
  {
    if parts == [] then "" else if |parts| == 1 then parts[0] else parts[0] + sep + Join(parts[1..], sep)
  }

  lemma {:induction false} JoinAppend(a: seq<string>, b: seq<string>, sep: string)
    requires a != [] && b != []
    ensures Join(a + b, sep) == Join(a, sep) + sep + Join(b, sep)
    decreases |a|
  {
    if |a| == 1 {
      assert (a + b)[1..] == b;
    } else {
      assert (a + b)[1..] == a[1..] + b;
      JoinAppend(a[1..], b, sep);
    }
  }

  /** One line of the text export: `[time] speaker: text`. */
  function TextLine(u: Utterance): string
  {
    "[" + FormatTimestamp(u.timestamp) + "] " + DisplayName(u.speakerName) + ": " + u.text
  }

  function TextLines(us: seq<Utterance>): seq<string>
  {
    seq(|us|, k requires 0 <= k < |us| => TextLine(us[k]))
  }

  /** `exportAsText()`. */
  function ExportText(us: seq<Utterance>): string
  {
    Join(TextLines(us), "\n")
  }

  /** The text export grows by exactly one line per appended utterance, in insertion order. */
  lemma ExportTextAppend(us: seq<Utterance>, u: Utterance)
    requires us != []
    ensures ExportText(us + [u]) == ExportText(us) + "\n" + TextLine(u)
  {
    assert TextLines(us + [u]) == TextLines(us) + [TextLine(u)];
    JoinAppend(TextLines(us), [TextLine(u)], "\n");
  }

  /** The subtitle window of an utterance: 3000 ms from its timestamp. */
  const SubtitleMillis: nat := 3000

  /** Block `index + 1` of the SRT export. */
  function SrtBlock(u: Utterance, index: nat): string
  {
    NatToString(index + 1) + "\n"
    + FormatSrtTimestamp(u.timestamp) + " --> " + FormatSrtTimestamp(u.timestamp + SubtitleMillis) + "\n"
    + DisplayName(u.speakerName) + ": " + u.text + "\n"
  }

  function SrtBlocks(us: seq<Utterance>): seq<string>
  {
    seq(|us|, k requires 0 <= k < |us| => SrtBlock(us[k], k))
  }

  /** `exportAsSRT()`: blocks numbered from 1, separated by blank lines. */
  function ExportSrt(us: seq<Utterance>): string
  {
    Join(SrtBlocks(us), "\n")
  }

  /** Appending an utterance appends exactly the next-numbered block to the SRT export. */
  lemma ExportSrtAppend(us: seq<Utterance>, u: Utterance)
    requires us != []
    ensures ExportSrt(us + [u]) == ExportSrt(us) + "\n" + SrtBlock(u, |us|)
  {
    assert SrtBlocks(us + [u]) == SrtBlocks(us) + [SrtBlock(u, |us|)];
    JoinAppend(SrtBlocks(us), [SrtBlock(u, |us|)], "\n");
  }

  /**
   * An SRT block's number reads back as its 1-based position, and its end time reads
   * back as its start time plus 3000 ms.
   */
  lemma SrtBlockTimes(u: Utterance, index: nat)
    ensures var b := SrtBlock(u, index); var n := NatToString(index + 1);
      && b[..|n|] == n && AllDigits(n) && DecimalValue(n) == index + 1
      && var start := FormatSrtTimestamp(u.timestamp);
         var end := FormatSrtTimestamp(u.timestamp + SubtitleMillis);
         b[|n| + 1..|n| + 1 + |start| + 5 + |end|] == start + " --> " + end
  {
    DecimalValueOfNatToString(index + 1);
    var n := NatToString(index + 1);
    var start := FormatSrtTimestamp(u.timestamp);
    var end := FormatSrtTimestamp(u.timestamp + SubtitleMillis);
    var b := SrtBlock(u, index);
    var rest := "\n" + DisplayName(u.speakerName) + ": " + u.text + "\n";
    assert b == n + "\n" + (start + " --> " + end) + rest;
  }

  /** The structured export: metadata and the utterance list verbatim. */
  datatype Metadata = Metadata(exportedAt: string, language: string, stats: Stats)

  datatype Document = Document(metadata: Metadata, utterances: seq<Utterance>)

  /** `exportAsJSON()` as a value (its JSON text layout is not modelled). */
  function ExportStructured(exportedAt: string, language: string, us: seq<Utterance>,
                            startTime: Option<int>, now: int): (d: Document)
    ensures d.utterances == us && d.metadata.stats.totalUtterances == |us|
  {
    Document(Metadata(exportedAt, language, GetStats(us, startTime, now)), us)
  }

  // ---------------------------------------------------------------------------
  // Looking an utterance up and patching it (`updateUtterance`)

  /** The first position holding id (`utterances.find(u => u.id === id)`). */
  function FindById(us: seq<Utterance>, id: nat): (r: Option<nat>)
    ensures r.Some? ==> r.value < |us| && us[r.value].id == id
    ensures r.Some? ==> forall k :: 0 <= k < r.value ==> us[k].id != id
    ensures r.None? ==> forall k :: 0 <= k < |us| ==> us[k].id != id
  {
    if us == [] then None
    else if us[0].id == id then Some(0)
    else match FindById(us[1..], id)
      case None => None
      case Some(k) => Some(k + 1)
  }

  /** In an indexed store the utterance with id k sits at position k. */
  lemma FindIndexed(us: seq<Utterance>, id: nat)
    requires Indexed(us)
    ensures FindById(us, id) == if id < |us| then Some(id) else None
  {
    if id < |us| {
      assert us[id].id == id;
    }
  }

  /** The fields an update object may carry; a field left `None` keeps its value, as `Object.assign` does. */
  datatype Patch = Patch(
    id: Option<nat>,
    text: Option<string>,
    timestamp: Option<nat>,
    confidence: Option<real>,
    speakerId: Option<Option<string>>,
    speakerName: Option<Option<string>>,
    isFinal: Option<bool>)

  function Patched(u: Utterance, p: Patch): Utterance
  {
    Utterance(p.id.GetOr(u.id), p.text.GetOr(u.text), p.timestamp.GetOr(u.timestamp),
              p.confidence.GetOr(u.confidence), p.speakerId.GetOr(u.speakerId),
              p.speakerName.GetOr(u.speakerName), p.isFinal.GetOr(u.isFinal))
  }

  // ---------------------------------------------------------------------------
  // The session

  /** The engine instance `createRecognition` builds (interim results on, one alternative). */
  datatype Engine = Engine(serial: nat, lang: string, continuous: bool)

  /** What happened when `recognition.start()` was called. */
  datatype StartOutcome = Began | Threw(message: string)

  /** A start failure other than "already started" arms the 500 ms retry timer. */
  predicate ArmsRetry(o: StartOutcome) {
    o.Threw? && !Includes(o.message, "already started")
  }

  datatype StartResult = Unsupported | AlreadyRunning | Started

  /** What an engine error surfaces: nothing, a status line, or an `onError` message. */
  datatype Notice = Quiet | Status(state: string, message: string) | Failure(message: string)

  /** The notice the `onerror` handler raises for each error code. */
  function ErrorNotice(error: string): Notice
  {
    if error == "aborted" then Quiet
    else if error == "no-speech" then Status("waiting", "話しかけてください...")
    else if error == "not-allowed" then Failure("マイクの使用が許可されていません")
    else if error == "network" then Failure("ネットワークエラー。インターネット接続を確認してください")
    else if error == "audio-capture" then Failure("マイクにアクセスできません")
    else Failure("エラー: " + error)
  }

  /** The two error codes after which the session no longer counts as running. */
  predicate IsFatal(error: string) { error == "not-allowed" || error == "audio-capture" }

  /** Only "aborted" is swallowed and only "no-speech" is a mere status; every other code reaches onError. */
  lemma ErrorClassification(error: string)
    ensures ErrorNotice(error).Quiet? <==> error == "aborted"
    ensures ErrorNotice(error).Status? <==> error == "no-speech"
    ensures ErrorNotice(error).Failure? <==> error != "aborted" && error != "no-speech"
    ensures IsFatal(error) ==> ErrorNotice(error).Failure?
  {
  }

  class Transcription {
    var recognition: Option<Engine>
    var isRunning: bool
    var language: string
    var utterances: seq<Utterance>
    var currentUtterance: Option<Interim>
    var startTime: Option<int>
    var restartCount: nat
    const maxRestarts: nat := 100
    /** Whether the platform offers a speech engine at all. */
    const supported: bool
    const isMobile: bool
    /** Engine instances built so far (each `new SpeechRecognition()` is a fresh one). */
    var created: nat
    /** Armed 300 ms restart timers that have not gone off yet. */
    var pendingRestarts: nat
    /** Armed 500 ms retry timers that have not gone off yet. */
    var pendingRetries: nat

    ghost predicate Valid()
      reads this
    {
      && restartCount <= maxRestarts
      && (isRunning ==> recognition.Some?)
      && (recognition.Some? ==> recognition.value.serial < created)
    }

    /** The origin `handleResult` subtracts (`Date.now() - this.startTime`, where null counts as 0). */
    function Origin(): int
      reads this
    {
      if startTime.Some? then startTime.value else 0
    }

    constructor (supported: bool, isMobile: bool)
      ensures Valid()
      ensures this.supported == supported && this.isMobile == isMobile
      ensures recognition.None? && !isRunning && language == "ja-JP"
      ensures utterances == [] && currentUtterance.None? && startTime.None?
      ensures restartCount == 0 && created == 0 && pendingRestarts == 0 && pendingRetries == 0
    {
      this.supported := supported;
      this.isMobile := isMobile;
      recognition := None;
      isRunning := false;
      language := "ja-JP";
      utterances := [];
      currentUtterance := None;
      startTime := None;
      restartCount := 0;
      created := 0;
      pendingRestarts := 0;
      pendingRetries := 0;
    }

    method SetLanguage(lang: string)
      modifies this`language
      ensures language == lang
    {
      language := lang;
    }

    /**
     * `start()`: refused without an engine, a no-op while running; otherwise it records
     * the start time, zeroes the restart counter, marks the session running, builds a
     * fresh engine and asks it to start.
     */
    method Start(now: int, outcome: StartOutcome) returns (r: StartResult)
      requires Valid()
      modifies this`startTime, this`restartCount, this`isRunning, this`recognition,
               this`created, this`pendingRetries
      ensures Valid()
      ensures r == (if !supported then Unsupported else if old(isRunning) then AlreadyRunning else Started)
      ensures r != Started ==> unchanged(this)
      ensures r == Started ==>
        && isRunning && restartCount == 0 && startTime == Some(now)
        && recognition == Some(Engine(old(created), language, !isMobile))
        && created == old(created) + 1
        && pendingRetries == old(pendingRetries) + (if ArmsRetry(outcome) then 1 else 0)
    {
      if !supported {
        return Unsupported;
      }
      if isRunning {
        return AlreadyRunning;
      }
      startTime := Some(now);
      restartCount := 0;
      isRunning := true;
      CreateRecognition();
      StartRecognition(outcome);
      r := Started;
    }

    /** `createRecognition()`: a fresh engine bound to the current language. */
    method CreateRecognition()
      modifies this`recognition, this`created
      ensures recognition == Some(Engine(old(created), language, !isMobile))
      ensures created == old(created) + 1
    {
      recognition := Some(Engine(created, language, !isMobile));
      created := created + 1;
    }

    /** `startRecognition()`: a start that throws anything but "already started" arms the retry timer. */
    method StartRecognition(outcome: StartOutcome)
      modifies this`pendingRetries
      ensures pendingRetries == old(pendingRetries) + (if ArmsRetry(outcome) then 1 else 0)
    {
      match outcome
      case Began =>
      case Threw(message) =>
        if !Includes(message, "already started") {
          pendingRetries := pendingRetries + 1;
        }
    }

    /** The retry timer goes off: while still running, build a fresh engine and start it (a second failure is only logged). */
    method FireRetryTimer()
      requires Valid() && pendingRetries > 0
      modifies this`pendingRetries, this`recognition, this`created
      ensures Valid()
      ensures pendingRetries == old(pendingRetries) - 1
      ensures isRunning ==> recognition == Some(Engine(old(created), language, !isMobile)) && created == old(created) + 1
      ensures !isRunning ==> recognition == old(recognition) && created == old(created)
    {
      pendingRetries := pendingRetries - 1;
      if isRunning {
        CreateRecognition();
      }
    }

    /** `onerror`: "not-allowed" and "audio-capture" clear the running flag; nothing else changes state. */
    method OnError(error: string) returns (n: Notice)
      requires Valid()
      modifies this`isRunning
      ensures Valid()
      ensures isRunning == (old(isRunning) && !IsFatal(error))
      ensures n == ErrorNotice(error)
    {
      n := ErrorNotice(error);
      if IsFatal(error) {
        isRunning := false;
      }
    }

    /**
     * `onend`: while running with restarts left, count one restart and arm the 300 ms timer;
     * otherwise fire `onEnd` (returned as `ended`).
     */
    method OnEnd() returns (ended: bool)
      requires Valid()
      modifies this`restartCount, this`pendingRestarts
      ensures Valid()
      ensures ended == !(old(isRunning) && old(restartCount) < maxRestarts)
      ensures restartCount == old(restartCount) + (if ended then 0 else 1)
      ensures pendingRestarts == old(pendingRestarts) + (if ended then 0 else 1)
    {
      if isRunning && restartCount < maxRestarts {
        restartCount := restartCount + 1;
        pendingRestarts := pendingRestarts + 1;
        ended := false;
      } else {
        ended := true;
      }
    }

    /** The restart timer goes off: it restarts the engine only if the session is still running. */
    method FireRestartTimer(outcome: StartOutcome)
      requires Valid() && pendingRestarts > 0
      modifies this`pendingRestarts, this`pendingRetries
      ensures Valid()
      ensures pendingRestarts == old(pendingRestarts) - 1
      ensures pendingRetries == old(pendingRetries) + (if isRunning && ArmsRetry(outcome) then 1 else 0)
    {
      pendingRestarts := pendingRestarts - 1;
      if isRunning {
        StartRecognition(outcome);
      }
    }

    /**
     * `handleResult(event)`: every span from `resultIndex` on is trimmed; blank ones are
     * skipped, final ones are appended as utterances (their ids the store's length at
     * that moment) and clear the preview, interim ones replace the preview. All share one
     * timestamp. Returns what was handed to `onResult` and to `onInterim`.
     */
    method HandleResult(spans: seq<Span>, resultIndex: nat, now: int)
      returns (emitted: seq<Utterance>, previews: seq<Interim>)
      requires now >= Origin()
      modifies this`utterances, this`currentUtterance
      ensures var ts: nat := now - Origin();
              var live := if resultIndex <= |spans| then spans[resultIndex..] else [];
              var r := Run(Effect(old(utterances), old(currentUtterance), []), live, ts);
        && utterances == r.store && currentUtterance == r.preview && previews == r.shown
        && utterances == old(utterances) + emitted
    {
      var ts: nat := now - Origin();
      var live := if resultIndex <= |spans| then spans[resultIndex..] else [];
      emitted, previews := TakeSpans(live, ts);
    }

    /** The result loop over the spans to process, all stamped ts. */
    method TakeSpans(live: seq<Span>, ts: nat) returns (emitted: seq<Utterance>, previews: seq<Interim>)
      modifies this`utterances, this`currentUtterance
      ensures var r := Run(Effect(old(utterances), old(currentUtterance), []), live, ts);
        && utterances == r.store && currentUtterance == r.preview && previews == r.shown
        && utterances == old(utterances) + emitted
    {
      ghost var start := Effect(utterances, currentUtterance, []);
      emitted, previews := [], [];
      var i := 0;
      while i < |live|
        invariant i <= |live|
        invariant Effect(utterances, currentUtterance, previews) == Run(start, live[..i], ts)
        invariant utterances == start.store + emitted
      {
        assert live[..i + 1][..i] == live[..i];
        var e, p := TakeSpan(live[i], ts);
        emitted, previews := emitted + e, previews + p;
        i := i + 1;
      }
      assert live[..i] == live;
    }

    /** The body of the result loop for one span. */
    method TakeSpan(s: Span, ts: nat) returns (e: seq<Utterance>, p: seq<Interim>)
      modifies this`utterances, this`currentUtterance
      ensures var r := Step(Effect(old(utterances), old(currentUtterance), []), s, ts);
        && utterances == r.store && currentUtterance == r.preview && p == r.shown
        && utterances == old(utterances) + e
    {
      e, p := [], [];
      var transcript := Trim(s.transcript);
      if transcript != [] {
        if s.isFinal {
          var u := Utterance(|utterances|, transcript, ts, s.confidence, None, None, true);
          utterances := utterances + [u];
          e := [u];
          currentUtterance := None;
        } else {
          currentUtterance := Some(Interim(transcript, ts));
          p := [Interim(transcript, ts)];
        }
      }
    }

    /** `stop()`: the session is no longer running and the engine is dropped. */
    method Stop()
      requires Valid()
      modifies this`isRunning, this`recognition
      ensures Valid()
      ensures !isRunning && recognition.None?
    {
      isRunning := false;
      recognition := None;
    }

    /** `clear()`: empties the store and the preview and forgets the start time. */
    method Clear()
      modifies this`utterances, this`currentUtterance, this`startTime
      ensures utterances == [] && currentUtterance.None? && startTime.None?
    {
      utterances := [];
      currentUtterance := None;
      startTime := None;
    }

    /** `updateUtterance(id, updates)`: patches the first utterance with that id, if any. */
    method UpdateUtterance(id: nat, patch: Patch)
      modifies this`utterances
      ensures utterances == match FindById(old(utterances), id)
                            case None => old(utterances)
                            case Some(k) => old(utterances)[k := Patched(old(utterances)[k], patch)]
    {
      match FindById(utterances, id)
      case None =>
      case Some(k) =>
        utterances := utterances[k := Patched(utterances[k], patch)];
    }
  }

  // ---------------------------------------------------------------------------
  // Scenarios

  function Min(a: nat, b: nat): nat { if a <= b then a else b }

  /**
   * n consecutive spontaneous `onend` events without a `stop()`: the first 100 each
   * schedule a restart (and the restart happens), every later one only fires `onEnd`,
   * and the session still counts as running throughout.
   */
  method RestartBudget(n: nat) returns (restarts: nat, endCallbacks: nat, running: bool)
    ensures restarts == Min(n, 100)
    ensures endCallbacks == n - restarts
    ensures running
  {
    var t := new Transcription(true, false);
    var r := t.Start(0, Began);
    restarts, endCallbacks := 0, 0;
    var i := 0;
    while i < n
      invariant 0 <= i <= n
      invariant t.Valid() && t.isRunning
      invariant t.restartCount == restarts == Min(i, 100)
      invariant endCallbacks == i - restarts
      invariant t.pendingRestarts == 0
    {
      var ended := t.OnEnd();
      if ended {
        endCallbacks := endCallbacks + 1;
      } else {
        restarts := restarts + 1;
        t.FireRestartTimer(Began);
      }
      i := i + 1;
    }
    running := t.isRunning;
  }

  /**
   * A restart armed just before `stop()` does nothing when its timer goes off, and the
   * next `onend` fires `onEnd` instead of restarting.
   */
  method StopPreventsRestart() returns (restartedAfterStop: bool, ended: bool)
    ensures !restartedAfterStop && ended
  {
    var t := new Transcription(true, false);
    var r := t.Start(0, Began);
    var first := t.OnEnd();
    t.Stop();
    var enginesBefore := t.created;
    t.FireRestartTimer(Threw("network down"));
    restartedAfterStop := t.created != enginesBefore || t.pendingRetries != 0 || t.recognition.Some?;
    ended := t.OnEnd();
  }

  /** Three final spans arriving 1000 ms apart become utterances 0, 1, 2 stamped 0, 1000, 2000. */
  method ThreeFinals() returns (ids: seq<nat>, stamps: seq<nat>, texts: seq<string>)
    ensures ids == [0, 1, 2] && stamps == [0, 1000, 2000]
    ensures texts == ["hello", "how are you", "fine thanks"]
  {
    var t := new Transcription(true, false);
    var r := t.Start(5000, Began);
    var words := ["hello", "how are you", "fine thanks"];
    var k := 0;
    while k < 3
      invariant 0 <= k <= 3
      invariant t.startTime == Some(5000)
      invariant |t.utterances| == k
      invariant forall j :: 0 <= j < k ==>
        t.utterances[j].id == j && t.utterances[j].timestamp == 1000 * j && t.utterances[j].text == words[j]
    {
      ThreeFinalsWords(k);
      var e, p := t.HandleResult([Span(words[k], 0.9, true)], 0, 5000 + 1000 * k);
      assert [Span(words[k], 0.9, true)][0..] == [Span(words[k], 0.9, true)];
      assert [Span(words[k], 0.9, true)][..0] == [];
      k := k + 1;
    }
    ids := [t.utterances[0].id, t.utterances[1].id, t.utterances[2].id];
    stamps := [t.utterances[0].timestamp, t.utterances[1].timestamp, t.utterances[2].timestamp];
    texts := [t.utterances[0].text, t.utterances[1].text, t.utterances[2].text];
  }

  lemma ThreeFinalsWords(k: nat)
    requires k < 3
    ensures var w := ["hello", "how are you", "fine thanks"][k]; Trim(w) == w
  {
    var w := ["hello", "how are you", "fine thanks"][k];
    assert w[0] in "hf" && w[|w| - 1] in "ous";
    TrimUnpadded(w);
  }

  /** A final span whose word is not padded with white space is one heard final span. */
  lemma FinalWordHeard(w: string, confidence: real)
    requires w != [] && !IsJsWhitespace(w[0]) && !IsJsWhitespace(w[|w| - 1])
    ensures Trim(w) == w && CountFinal([Span(w, confidence, true)]) == 1
  {
    TrimUnpadded(w);
    assert [Span(w, confidence, true)][..0] == [];
  }

}
