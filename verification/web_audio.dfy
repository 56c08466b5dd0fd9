/**
 * The browser audio player (audio.web.ts): a FIFO queue of audio elements
 * of which at most one, the current one, is playing. An element is its URL
 * and playback rate; `started` records every element whose `play()` was
 * called, in order, which is what the listener hears.
 */
module WebAudio {
  import opened Common
  import opened Util

  /** An `HTMLAudioElement` as the player configures it. */
  datatype Sound = Sound(url: string, rate: Float)

  /** The voice part of a sound file name: lower-cased first, then asciified. */
  function VoiceSegment(voice: string): (seg: string)
    ensures |seg| >= |voice|
    ensures forall i :: 0 <= i < |seg| ==> !IsIcelandic(seg[i])
  {
    AsciifiedHasNoIcelandic(Lower(voice));
    AsciifiedLength(Lower(voice));
    Asciified(Lower(voice))
  }

  /** The URL `playSound` builds: base, sound name, voice suffix when a voice is given, extension. */
  function SoundURL(name: string, voice: Option<string>): string {
    AudioBaseURL + "/" + name
      + (if voice.Some? then "-" + VoiceSegment(voice.value) else "")
      + "." + AudioFileExtension
  }

  /** The default voice names the "gudrun" files. */
  lemma DefaultVoiceSegment()
    ensures VoiceSegment(DefaultSpeechSynthesisVoice) == "gudrun"
  {
    assert DefaultSpeechSynthesisVoice == ['G', 'u', 'ð', 'r', 'ú', 'n'];
    assert Lower(DefaultSpeechSynthesisVoice) == ['g', 'u', 'ð', 'r', 'ú', 'n'];
  }

  /** The voice suffix ignores letter case. */
  lemma VoiceSegmentIgnoresCase(voice: string)
    ensures VoiceSegment(Lower(voice)) == VoiceSegment(voice)
  {
    LowerIdempotent(voice);
  }

  /** Sounds differing only in whether a voice is given have different URLs. */
  lemma SoundURLMarksVoice(name: string, voice: string)
    ensures SoundURL(name, Some(voice)) != SoundURL(name, None)
  {
    var u := SoundURL(name, Some(voice));
    var w := SoundURL(name, None);
    var k := |AudioBaseURL + "/" + name|;
    assert u[k] == '-';
    assert w[k] == '.';
  }

  /** The seven "I don't know" sound names, in table order. */
  function DunnoKey(k: nat): (key: string)
    requires k < |DunnoStrings|
    ensures (DunnoKey(k), DunnoStrings[k].1) in DunnoStrings
  {
    DunnoStrings[k].0
  }

  class WebAudioPlayer {
    /** `_currAudio`. */
    var current: Option<Sound>
    /** `_audioQueue`. */
    var queue: seq<Sound>
    /** Every element on which `play()` has been called, oldest first. */
    var started: seq<Sound>

    /** The queue keeps draining: nothing waits unless something plays, and the current element is the last one started. */
    ghost predicate Valid()
      reads this
    {
      (current.None? ==> queue == [])
      && (current.Some? ==> started != [] && started[|started| - 1] == current.value)
    }

    /** What will still be heard, in order: the current element, then the queue. */
    function Pending(): (p: seq<Sound>)
      reads this
      ensures |p| == |queue| + (if current.Some? then 1 else 0)
    {
      (if current.Some? then [current.value] else []) + queue
    }

    constructor()
      ensures Valid()
      ensures current == None && queue == [] && started == []
    {
      current := None;
      queue := [];
      started := [];
    }

    /** `_playAudioQueue`: when nothing plays, start the first queued element. */
    method PlayAudioQueue()
      modifies this
      ensures if old(current).None? && old(queue) != [] then
          current == Some(old(queue)[0]) && queue == old(queue)[1..] && started == old(started) + [old(queue)[0]]
        else
          current == old(current) && queue == old(queue) && started == old(started)
    {
      if current.None? {
        if queue != [] {
          var next := queue[0];
          queue := queue[1..];
          current := Some(next);
          started := started + [next];
        }
      }
    }

    /** `_playAudio`: enqueue an element with rate `speed ?? 1` and start it if idle. */
    method PlayAudio(url: string, speed: Option<Float>)
      requires Valid()
      modifies this
      ensures Valid()
      ensures Pending() == old(Pending()) + [Sound(url, speed.GetOr(1.0))]
      ensures started == old(started) + (if old(current).None? then [Sound(url, speed.GetOr(1.0))] else [])
    {
      queue := queue + [Sound(url, speed.GetOr(1.0))];
      PlayAudioQueue();
    }

    /** `playURL`. */
    method PlayURL(url: string, speed: Option<Float>)
      requires Valid()
      modifies this
      ensures Valid()
      ensures Pending() == old(Pending()) + [Sound(url, speed.GetOr(1.0))]
      ensures started == old(started) + (if old(current).None? then [Sound(url, speed.GetOr(1.0))] else [])
    {
      PlayAudio(url, speed);
    }

    /** `playSound`: play the bundled sound `name`, in `voice` when given. */
    method PlaySound(name: string, voice: Option<string>, speed: Option<Float>)
      requires Valid()
      modifies this
      ensures Valid()
      ensures Pending() == old(Pending()) + [Sound(SoundURL(name, voice), speed.GetOr(1.0))]
      ensures started == old(started) + (if old(current).None? then [Sound(SoundURL(name, voice), speed.GetOr(1.0))] else [])
    {
      var url := AudioBaseURL + "/" + name;
      if voice.Some? {
        var seg := Asciify(Lower(voice.value));
        assert seg == VoiceSegment(voice.value);
        url := url + ("-" + seg);
      }
      url := url + "." + AudioFileExtension;
      assert url == SoundURL(name, voice);
      PlayURL(url, speed);
    }

    /** The `onended` handler of the current element: it is dropped and the next one starts. */
    method OnEnded()
      requires Valid() && current.Some?
      modifies this
      ensures Valid()
      ensures Pending() == old(Pending())[1..]
      ensures started == old(started) + (if old(queue) != [] then [old(queue)[0]] else [])
    {
      current := None;
      PlayAudioQueue();
    }

    /** `stop`: pause the current element and forget everything queued. */
    method Stop()
      requires Valid()
      modifies this
      ensures Valid()
      ensures current == None && queue == [] && Pending() == []
      ensures started == old(started)
    {
      current := None;
      queue := [];
    }

    /** `playSessionStart`: the voiceless "rec_begin" cue. */
    method PlaySessionStart()
      requires Valid()
      modifies this
      ensures Valid()
      ensures Pending() == old(Pending()) + [Sound(SoundURL("rec_begin", None), 1.0)]
      ensures started == old(started) + (if old(current).None? then [Sound(SoundURL("rec_begin", None), 1.0)] else [])
    {
      PlaySound("rec_begin", None, None);
    }

    /** `playSessionConfirm`: the voiceless "rec_confirm" cue. */
    method PlaySessionConfirm()
      requires Valid()
      modifies this
      ensures Valid()
      ensures Pending() == old(Pending()) + [Sound(SoundURL("rec_confirm", None), 1.0)]
      ensures started == old(started) + (if old(current).None? then [Sound(SoundURL("rec_confirm", None), 1.0)] else [])
    {
      PlaySound("rec_confirm", None, None);
    }

    /** `playSessionCancel`: stop everything, then the "rec_cancel" cue is all that plays. */
    method PlaySessionCancel()
      requires Valid()
      modifies this
      ensures Valid()
      ensures Pending() == [Sound(SoundURL("rec_cancel", None), 1.0)]
      ensures current == Some(Sound(SoundURL("rec_cancel", None), 1.0))
      ensures started == old(started) + [Sound(SoundURL("rec_cancel", None), 1.0)]
    {
      Stop();
      PlaySound("rec_cancel", None, None);
    }

    /** `playNoMic`: the "nomic" message in the given voice, the default voice when none is given. */
    method PlayNoMic(voice: Option<string>, speed: Option<Float>)
      requires Valid()
      modifies this
      ensures Valid()
      ensures Pending() == old(Pending()) + [Sound(SoundURL("nomic", Some(voice.GetOr(DefaultSpeechSynthesisVoice))), speed.GetOr(1.0))]
      ensures started == old(started) + (if old(current).None? then [Sound(SoundURL("nomic", Some(voice.GetOr(DefaultSpeechSynthesisVoice))), speed.GetOr(1.0))] else [])
    {
      PlaySound("nomic", Some(voice.GetOr(DefaultSpeechSynthesisVoice)), speed);
    }

    /**
     * `playDunno`: `pick` stands for `Math.floor(7 * Math.random())`, which
     * lies in 0..6. The sound with that key is queued and its text returned.
     */
    method PlayDunno(voice: string, speed: Option<Float>, pick: nat) returns (text: string)
      requires Valid() && pick < |DunnoStrings|
      modifies this
      ensures Valid()
      ensures text == DunnoStrings[pick].1
      ensures Pending() == old(Pending()) + [Sound(SoundURL(DunnoKey(pick), Some(voice)), speed.GetOr(1.0))]
      ensures started == old(started) + (if old(current).None? then [Sound(SoundURL(DunnoKey(pick), Some(voice)), speed.GetOr(1.0))] else [])
    {
      var key := DunnoStrings[pick].0;
      PlaySound(key, Some(voice), speed);
      text := DunnoStrings[pick].1;
    }

    /**
     * `speak` once speech synthesis has answered: `synthesized` is the audio
     * URL it returned, or `None` when it returned none, which is an error.
     */
    method Speak(synthesized: Option<string>) returns (err: Option<string>)
      requires Valid()
      modifies this
      ensures Valid()
      ensures err.Some? <==> synthesized.None?
      ensures err.Some? ==> err.value == "Error during speech synthesis" && Pending() == old(Pending())
      ensures synthesized.Some? ==> Pending() == old(Pending()) + [Sound(synthesized.value, 1.0)]
      ensures started == old(started) + (if synthesized.Some? && old(current).None? then [Sound(synthesized.value, 1.0)] else [])
    {
      if synthesized.None? {
        return Some("Error during speech synthesis");
      }
      PlayAudio(synthesized.value, None);
      err := None;
    }
  }

  /** Sounds requested while one plays are heard afterwards, in request order. */
  method QueueOrderScenario(a: string, b: string, c: string) returns (heard: seq<Sound>)
    ensures heard == [Sound(a, 1.0), Sound(b, 1.5), Sound(c, 1.0)]
  {
    var p := new WebAudioPlayer();
    p.PlayURL(a, None);
    p.PlayURL(b, Some(1.5));
    p.PlayURL(c, None);
    assert p.started == [Sound(a, 1.0)];
    p.OnEnded();
    p.OnEnded();
    heard := p.started;
  }

  /** Cancelling drops what was queued: only the cancel cue follows. */
  method CancelScenario(a: string, b: string) returns (heard: seq<Sound>, pending: seq<Sound>)
    ensures heard == [Sound(a, 1.0), Sound(SoundURL("rec_cancel", None), 1.0)]
    ensures pending == [Sound(SoundURL("rec_cancel", None), 1.0)]
  {
    var p := new WebAudioPlayer();
    p.PlayURL(a, None);
    p.PlayURL(b, None);
    p.PlaySessionCancel();
    heard := p.started;
    pending := p.Pending();
  }
}
