/**
 * The parts of the meeting transcriber's application controller (meeting-transcriber/app.js)
 * that change the model: attributing a finalised utterance to a speaker, renaming a speaker
 * with the backfill of the stored utterances, clearing, and restoring an autosave.
 * The timestamp renderer `formatDuration` is `TimeFormat.FormatDuration`.
 *
 * The DOM, the modal dialog, `confirm`, `localStorage` and the audio processor are not
 * modelled: whether detection is active, the features it reports, the user's answer
 * to `confirm` and the stored snapshot are parameters.
 */
module MeetingApp {
  import opened Wrappers
  import opened Text
  import opened Transcription
  import opened SpeakerRecognition

  /** The name shown when an identified speaker cannot be looked up. */
  const UnknownSpeaker: string := "不明"

  /**
   * The backfill of a rename: every utterance attributed to id gets the new name; nothing
   * else about any utterance changes.
   */
  function Renamed(us: seq<Utterance>, id: string, name: string): seq<Utterance>
  {
    seq(|us|, k requires 0 <= k < |us| => if us[k].speakerId == Some(id) then us[k].(speakerName := Some(name)) else us[k])
  }

  /**
   * Renaming sets the name on exactly the utterances with that speaker id, keeps every id,
   * text, timestamp and speaker id, and so keeps the store's id discipline.
   */
  lemma RenamedShape(us: seq<Utterance>, id: string, name: string)
    ensures var r := Renamed(us, id, name);
      && |r| == |us|
      && (forall k :: 0 <= k < |us| ==>
            && r[k].id == us[k].id && r[k].text == us[k].text && r[k].timestamp == us[k].timestamp
            && r[k].speakerId == us[k].speakerId
            && r[k].speakerName == if us[k].speakerId == Some(id) then Some(name) else us[k].speakerName)
      && (Indexed(us) ==> Indexed(r))
  {
  }

  /** Renaming twice to the same name is renaming once. */
  lemma RenamedIdempotent(us: seq<Utterance>, id: string, name: string)
    ensures Renamed(Renamed(us, id, name), id, name) == Renamed(us, id, name)
  {
  }

  /** After a rename the exports show the new name on that speaker's lines. */
  lemma RenamedExport(us: seq<Utterance>, id: string, name: string, k: nat)
    requires name != "" && k < |us| && us[k].speakerId == Some(id)
    ensures TextLines(Renamed(us, id, name))[k]
            == "[" + FormatTimestampOf(us[k]) + "] " + name + ": " + us[k].text
  {
  }

  function FormatTimestampOf(u: Utterance): string { TimeFormat.FormatTimestamp(u.timestamp) }

  /**
   * The attribution of one finalised utterance: an identified speaker sets the id and
   * the name looked up (or "不明"); a name that is still unset then defaults to "話者".
   */
  function Attributed(u: Utterance, speakerId: Option<string>, speakers: seq<Speaker>): Utterance
  {
    var v := if Truthy(speakerId) then
               u.(speakerId := speakerId,
                  speakerName := Some(match Find(speakers, speakerId.value)
                                      case None => UnknownSpeaker
                                      case Some(j) => speakers[j].name))
             else u;
    if Truthy(v.speakerName) then v else v.(speakerName := Some(DefaultSpeaker))
  }

  /** The utterance count of the speaker with that id goes up by one; nothing else changes. */
  function CountedFor(speakers: seq<Speaker>, speakerId: Option<string>): seq<Speaker>
  {
    if Truthy(speakerId) then Credited(speakers, speakerId.value) else speakers
  }

  /** An attributed utterance always has a non-empty speaker name, and keeps id, text and timestamp. */
  lemma AttributedNamed(u: Utterance, speakerId: Option<string>, speakers: seq<Speaker>)
    ensures var w := Attributed(u, speakerId, speakers);
      && Truthy(w.speakerName)
      && w.id == u.id && w.text == u.text && w.timestamp == u.timestamp
      && (Truthy(speakerId) ==> w.speakerId == speakerId)
      && (!Truthy(speakerId) && !Truthy(u.speakerName) ==> w.speakerName == Some(DefaultSpeaker))
  {
  }

  /** What a stored autosave turns out to be when it is read back. */
  datatype Snapshot =
    | Missing
    | Unparseable
    | Parsed(utterances: Option<seq<Utterance>>)

  class MeetingTranscriber {
    const transcription: Transcription
    const speakerRecognition: SpeakerRecognition

    ghost predicate Valid()
      reads this, transcription, speakerRecognition
    {
      transcription.Valid() && speakerRecognition.Valid()
    }

    constructor (supported: bool, isMobile: bool, sqrt: real -> real)
      ensures Valid() && fresh(transcription) && fresh(speakerRecognition)
      ensures transcription.supported == supported && !transcription.isRunning && transcription.startTime.None?
      ensures transcription.utterances == [] && speakerRecognition.speakers == []
    {
      transcription := new Transcription(supported, isMobile);
      speakerRecognition := new SpeakerRecognition(sqrt);
    }

    /**
     * The `onResult` callback for the k-th stored utterance. When detection is on and the
     * audio processor reports features, the clusterer is asked for a speaker (its state
     * afterwards is `identified`); an identified speaker is recorded on the utterance and
     * credited with one utterance. Only utterance k changes, and an identified speaker is
     * always found, so "不明" is never shown.
     */
    method OnResult(k: nat, detecting: bool, features: Option<Features>)
      returns (speakerId: Option<string>, ghost identified: seq<Speaker>)
      requires Valid() && k < |transcription.utterances|
      modifies transcription`utterances, speakerRecognition`speakers, speakerRecognition`featureHistory,
               speakerRecognition`currentSpeakerId, speakerRecognition`speakerCount, speakerRecognition`serials
      ensures Valid()
      ensures !(detecting && features.Some?) ==>
        speakerId.None? && identified == old(speakerRecognition.speakers) && unchanged(speakerRecognition)
      ensures speakerId.Some? ==> Find(identified, speakerId.value).Some?
      ensures speakerRecognition.speakers == CountedFor(identified, speakerId)
      ensures transcription.utterances
              == old(transcription.utterances)[k := Attributed(old(transcription.utterances)[k], speakerId, identified)]
    {
      speakerId := None;
      if detecting && features.Some? {
        speakerId := speakerRecognition.IdentifySpeaker(features);
      }
      identified := speakerRecognition.speakers;
      Attribute(k, speakerId);
    }

    /** The attribution proper, once the clusterer has answered. */
    method Attribute(k: nat, speakerId: Option<string>)
      requires Valid() && k < |transcription.utterances|
      requires speakerId.Some? ==> Find(speakerRecognition.speakers, speakerId.value).Some?
      modifies transcription`utterances, speakerRecognition`speakers
      ensures Valid()
      ensures speakerRecognition.speakers == CountedFor(old(speakerRecognition.speakers), speakerId)
      ensures transcription.utterances
              == old(transcription.utterances)[k := Attributed(old(transcription.utterances)[k], speakerId, old(speakerRecognition.speakers))]
    {
      var u := Label(transcription.utterances[k], speakerId);
      transcription.utterances := transcription.utterances[k := u];
      if Truthy(speakerId) {
        speakerRecognition.IncrementUtteranceCount(speakerId.value);
      }
    }

    /** The fields the callback writes onto the utterance object. */
    method Label(u: Utterance, speakerId: Option<string>) returns (w: Utterance)
      ensures w == Attributed(u, speakerId, speakerRecognition.speakers)
    {
      w := u;
      if Truthy(speakerId) {
        var speaker := speakerRecognition.GetSpeaker(speakerId.value);
        w := w.(speakerId := speakerId, speakerName := Some(if speaker.Some? then speaker.value.name else UnknownSpeaker));
      }
      if !Truthy(w.speakerName) {
        w := w.(speakerName := Some(DefaultSpeaker));
      }
    }

    /**
     * `saveSpeakerName()`: a blank name is refused and changes nothing. Otherwise the
     * trimmed name renames the speaker being edited and is backfilled onto its
     * utterances, or, when no speaker is being edited, is added as a manual speaker.
     */
    method SaveSpeakerName(input: string, editing: Option<string>) returns (ok: bool)
      requires Valid()
      modifies transcription`utterances, speakerRecognition`speakers, speakerRecognition`speakerCount,
               speakerRecognition`serials
      ensures Valid()
      ensures ok <==> Trim(input) != []
      ensures !ok ==> unchanged(transcription) && unchanged(speakerRecognition)
      ensures ok && Truthy(editing) ==>
        && transcription.utterances == Renamed(old(transcription.utterances), editing.value, Trim(input))
        && speakerRecognition.speakerCount == old(speakerRecognition.speakerCount)
        && speakerRecognition.speakers == WithName(old(speakerRecognition.speakers), editing.value, Trim(input))
      ensures ok && !Truthy(editing) ==>
        && transcription.utterances == old(transcription.utterances)
        && speakerRecognition.speakerCount == old(speakerRecognition.speakerCount) + 1
        && speakerRecognition.speakers
           == old(speakerRecognition.speakers) + [ManualSpeaker(speakerRecognition.speakerCount, Trim(input))]
    {
      var name := Trim(input);
      if name == [] {
        return false;
      }
      ok := true;
      if Truthy(editing) {
        speakerRecognition.UpdateSpeakerName(editing.value, name);
        Backfill(editing.value, name);
      } else {
        var id := speakerRecognition.AddManualSpeaker(name);
      }
    }

    /** The `forEach` that writes a new name onto every utterance of one speaker. */
    method Backfill(id: string, name: string)
      requires Valid()
      modifies transcription`utterances
      ensures Valid()
      ensures transcription.utterances == Renamed(old(transcription.utterances), id, name)
    {
      ghost var us := transcription.utterances;
      var i := 0;
      while i < |transcription.utterances|
        invariant i <= |us| && |transcription.utterances| == |us|
        invariant transcription.Valid() && speakerRecognition.Valid()
        invariant forall j :: 0 <= j < i ==> transcription.utterances[j] == Renamed(us, id, name)[j]
        invariant forall j :: i <= j < |us| ==> transcription.utterances[j] == us[j]
      {
        var u := transcription.utterances[i];
        if u.speakerId == Some(id) {
          transcription.utterances := transcription.utterances[i := u.(speakerName := Some(name))];
        }
        i := i + 1;
      }
      assert transcription.utterances == Renamed(us, id, name);
    }

    /** `clearTranscript()`: once confirmed, the store and the clusterer are emptied together. */
    method ClearTranscript(confirmed: bool)
      requires Valid()
      modifies transcription`utterances, transcription`currentUtterance, transcription`startTime,
               speakerRecognition`speakers, speakerRecognition`speakerCount, speakerRecognition`featureHistory,
               speakerRecognition`currentSpeakerId, speakerRecognition`serials
      ensures Valid()
      ensures !confirmed ==> unchanged(transcription) && unchanged(speakerRecognition)
      ensures confirmed ==>
        && transcription.utterances == [] && transcription.currentUtterance.None? && transcription.startTime.None?
        && speakerRecognition.speakers == [] && speakerRecognition.speakerCount == 0
        && speakerRecognition.featureHistory == [] && speakerRecognition.currentSpeakerId.None?
    {
      if confirmed {
        transcription.Clear();
        speakerRecognition.Reset();
      }
    }

    /**
     * `restoreAutosave()`: a parsed snapshot with an utterance list appends its entries
     * in order; a missing or unparseable snapshot, or one without a list, changes nothing.
     */
    method RestoreAutosave(snapshot: Snapshot)
      requires Valid()
      modifies transcription`utterances
      ensures Valid()
      ensures transcription.utterances
              == old(transcription.utterances) + (if snapshot.Parsed? && snapshot.utterances.Some? then snapshot.utterances.value else [])
    {
      if snapshot.Parsed? && snapshot.utterances.Some? {
        var restored := snapshot.utterances.value;
        var i := 0;
        while i < |restored|
          invariant i <= |restored|
          invariant transcription.Valid() && speakerRecognition.Valid()
          invariant transcription.utterances == old(transcription.utterances) + restored[..i]
        {
          assert restored[..i + 1] == restored[..i] + [restored[i]];
          transcription.utterances := transcription.utterances + [restored[i]];
          i := i + 1;
        }
        assert restored[..i] == restored;
      }
    }
  }

  /**
   * Whatever a session has recorded, after clearing it the next finalised span gets id 0
   * again: ids restart with the store.
   */
  method IdsRestartAfterClear(app: MeetingTranscriber) returns (firstId: nat)
    requires app.Valid()
    modifies app.transcription, app.speakerRecognition
    ensures firstId == 0
  {
    app.ClearTranscript(true);
    assert app.transcription.utterances == [] && app.transcription.Origin() == 0;
    var preview := app.transcription.currentUtterance;
    var spans := [Span("three", 1.0, true)];
    assert spans[0..] == spans;
    FinalWordHeard("three", 1.0);
    var e3, p3 := app.transcription.HandleResult(spans, 0, 4000);
    RunShape(Effect([], preview, []), spans, 4000);
    assert e3 == app.transcription.utterances;
    firstId := e3[0].id;
  }
}
