/**
 * The React Native audio player (audio.native.ts). It keeps no state: each
 * operation computes one call on the native sound player, which is the
 * output modelled here.
 */
module NativeAudio {
  import opened Common
  import opened Util
  import WebAudio

  /** A call on the native `SoundPlayer`. */
  datatype Call = PlayUrl(url: string) | StopAll

  /** What `speak` does: plays one call, or throws with a message. */
  datatype SpeakResult = Played(call: Call) | Failed(error: string)

  /** `_playFile`: the bundled file `file` as a URL. */
  function FileURL(file: string): string {
    AudioBaseURL + "/" + file + "." + AudioFileExtension
  }

  /** Different files have different URLs. */
  lemma FileURLInjective(a: string, b: string)
    requires FileURL(a) == FileURL(b)
    ensures a == b
  {
    var n := |AudioBaseURL + "/"|;
    assert |a| == |b|;
    assert a == FileURL(a)[n..n + |a|];
    assert b == FileURL(b)[n..n + |b|];
  }

  /** The voice part of a file name: asciified, then lower-cased; "gudrun" for an absent or empty voice. */
  function VoiceName(voice: string): (v: string)
    ensures voice == "" ==> v == "gudrun"
    ensures voice != "" ==> v == Lower(Asciified(voice)) && |v| >= |voice|
  {
    if voice == "" then "gudrun"
    else
      AsciifiedLength(voice);
      Lower(Asciified(voice))
  }

  /** `playSound`'s file: the bare name without a voice, otherwise name, dash and voice. */
  function SoundFile(name: string, voice: Option<string>): string {
    if voice.Some? then name + "-" + VoiceName(voice.value) else name
  }

  /** `playSessionStart`, `playSessionConfirm`, `playSessionCancel`: the voiceless cues. */
  function SessionStart(): Call { PlayUrl(FileURL("rec_begin")) }
  function SessionConfirm(): Call { PlayUrl(FileURL("rec_confirm")) }
  function SessionCancel(): Call { PlayUrl(FileURL("rec_cancel")) }

  /** `playNoMic`; the playback speed is ignored. */
  function NoMic(voice: Option<string>): Call {
    PlayUrl(FileURL("nomic-" + VoiceName(voice.GetOr(""))))
  }

  /** `playSound`; the playback speed is ignored. */
  function PlaySound(name: string, voice: Option<string>): Call {
    PlayUrl(FileURL(SoundFile(name, voice)))
  }

  /** `playURL` and `stop` pass straight through. */
  function PlayURL(url: string): Call { PlayUrl(url) }
  function Stop(): Call { StopAll }

  /**
   * `speak` once speech synthesis has answered: `synthesized` is the audio
   * URL it returned. With none it throws "Error during speech synthesis"
   * (the `Failed` case); otherwise it plays that URL, as the web player does.
   */
  function Speak(synthesized: Option<string>): (r: SpeakResult)
    ensures r.Failed? <==> synthesized.None?
    ensures r.Failed? ==> r.error == "Error during speech synthesis"
    ensures r.Played? ==> r.call == PlayURL(synthesized.value) && r.call.url == synthesized.value
  {
    match synthesized
    case None => Failed("Error during speech synthesis")
    case Some(url) => Played(PlayURL(url))
  }

  /** `n.toString()` for a single decimal digit. */
  function DigitString(n: nat): (s: string)
    requires n < 10
    ensures |s| == 1 && '0' <= s[0] <= '9'
  {
    [('0' as int + n) as char]
  }

  /** `padStart(2, "0")`: pad on the left with zeros to length two. */
  function PadTwo(s: string): (t: string)
    ensures |s| < 2 ==> |t| == 2 && t[2 - |s|..] == s
    ensures |s| >= 2 ==> t == s
    decreases 2 - |s|
  {
    if |s| >= 2 then s else PadTwo("0" + s)
  }

  /**
   * The key `playDunno` chooses: `pick` stands for
   * `Math.floor(Math.random() * 7)`, so the number is `pick + 1`.
   */
  function DunnoKey(pick: nat): string
    requires pick < 7
  {
    "dunno" + PadTwo(DigitString(pick + 1))
  }

  /**
   * `playDunno`: the call it makes and the text it returns, falling back to
   * the first utterance when the key is missing or its text is empty.
   */
  function PlayDunno(voice: string, pick: nat): (Call, string)
    requires pick < 7
  {
    var key := DunnoKey(pick);
    var found := Lookup(DunnoStrings, key);
    var text := if found.Some? && found.value != "" then found.value else DunnoStrings[0].1;
    (PlayUrl(FileURL(key + "-" + VoiceName(voice))), text)
  }

  /** The key for `pick` is the table's entry `pick`: "dunno01" to "dunno07". */
  lemma DunnoKeyIsTableKey(pick: nat)
    requires pick < 7
    ensures DunnoKey(pick) == DunnoStrings[pick].0
  {
    var d := DigitString(pick + 1);
    assert PadTwo(d) == ['0', d[0]];
  }

  /**
   * `playDunno` plays the utterance whose text it returns, and the
   * fallback to the first utterance is never taken.
   */
  lemma DunnoFallbackUnreachable(voice: string, pick: nat)
    requires pick < 7
    ensures PlayDunno(voice, pick).1 == DunnoStrings[pick].1
    ensures PlayDunno(voice, pick).0 == PlayUrl(FileURL(DunnoStrings[pick].0 + "-" + VoiceName(voice)))
  {
    DunnoKeyIsTableKey(pick);
    LookupAt(DunnoStrings, pick, DunnoStrings[pick].0);
  }

  /** The native and web players choose the same utterance for the same random draw. */
  lemma DunnoAgreesWithWeb(pick: nat)
    requires pick < 7
    ensures DunnoKey(pick) == WebAudio.DunnoKey(pick)
  {
    DunnoKeyIsTableKey(pick);
  }

  /** An empty voice names the default "gudrun" files; so does the default voice itself. */
  lemma EmptyVoiceIsDefault()
    ensures VoiceName("") == VoiceName(DefaultSpeechSynthesisVoice) == "gudrun"
  {
    WebAudio.DefaultVoiceSegment();
    AsciifiedLowerCommute(DefaultSpeechSynthesisVoice);
  }

  /**
   * For a non-empty voice, both players reach the same URL even though one
   * lower-cases before asciifying and the other after.
   */
  lemma SoundURLAgreesWithWeb(name: string, voice: Option<string>)
    requires voice.Some? ==> voice.value != ""
    ensures FileURL(SoundFile(name, voice)) == WebAudio.SoundURL(name, voice)
  {
    if voice.Some? {
      AsciifiedLowerCommute(voice.value);
    }
  }

  /** For the empty voice the players differ: the native file is "…-gudrun", the web file "…-". */
  lemma EmptyVoiceDiffersFromWeb(name: string)
    ensures FileURL(SoundFile(name, Some(""))) == AudioBaseURL + "/" + name + "-gudrun." + AudioFileExtension
    ensures WebAudio.SoundURL(name, Some("")) == AudioBaseURL + "/" + name + "-." + AudioFileExtension
  {
    assert Lower("") == [];
    assert Asciified([]) == [];
  }

  /** Unlike the web player, cancelling does not stop what is playing: its only call plays the cue. */
  lemma CancelOnlyPlaysCue()
    ensures SessionCancel().PlayUrl? && SessionCancel().url == WebAudio.SoundURL("rec_cancel", None)
  {
  }

  /** The no-microphone message is the "nomic" sound in the given voice. */
  lemma NoMicIsVoicedSound(voice: Option<string>)
    ensures NoMic(voice) == PlaySound("nomic", Some(voice.GetOr("")))
  {
  }
}
