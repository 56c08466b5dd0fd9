/** Constants and small shared types of the Embla client core (common.ts). */
module Common {

  /** An optional value: the source's `undefined` is `None`. */
  datatype Option<+T> = None | Some(value: T) {
    function GetOr(default: T): T {
      match this
      case Some(v) => v
      case None => default
    }
  }

  /** A JavaScript number that the core only copies (voice speed, coordinates, playback rate). */
  type Float = real

  // Server communication
  const DefaultServer: string := "https://api.greynir.is"
  const TokenEndpoint: string := "/rat/v1/token"
  const SocketEndpoint: string := "/rat/v1/short_asr"
  const DefaultQueryServer: string := "https://greynir.is"

  // Speech synthesis
  const DefaultSpeechSynthesisVoice: string := "Guðrún"

  /** Read by the configuration but not defined by common.ts: an unspecified number. */
  const DefaultSpeechSynthesisSpeed: Float

  /** Read by the configuration but not defined by common.ts: an unspecified string. */
  const SpeechToTextLanguage: string

  /** The package version, read from package.json, which is not part of this model. */
  const SoftwareVersion: string

  /** Base URL of the bundled UI sounds, used by both audio players. */
  const AudioBaseURL: string := "https://embla.is/assets/audio"
  const AudioFileExtension: string := "mp3"

  /**
   * The seven "I don't know" utterances, keyed by sound name, in declaration
   * order. Both audio players declare this same table.
   */
  const DunnoStrings: seq<(string, string)> := [
    ("dunno01", "Ég get ekki svarað því."),
    ("dunno02", "Ég get því miður ekki svarað því."),
    ("dunno03", "Ég kann ekki svar við því."),
    ("dunno04", "Ég skil ekki þessa fyrirspurn."),
    ("dunno05", "Ég veit það ekki."),
    ("dunno06", "Því miður skildi ég þetta ekki."),
    ("dunno07", "Því miður veit ég það ekki.")
  ]

  /** Object-literal lookup: the value of the first entry with key `k`, if any. */
  function Lookup<K(==), V>(table: seq<(K, V)>, k: K): (r: Option<V>)
    ensures r.None? <==> forall i :: 0 <= i < |table| ==> table[i].0 != k
  {
    if table == [] then None
    else if table[0].0 == k then Some(table[0].1)
    else
      Lookup(table[1..], k)
  }

  /** A value found comes from an entry with that key. */
  lemma LookupFound<K, V>(table: seq<(K, V)>, k: K)
    requires Lookup(table, k).Some?
    ensures exists i :: 0 <= i < |table| && table[i] == (k, Lookup(table, k).value)
  {
  }

  /** The entry at `i` is the one found when no earlier entry has key `k`. */
  lemma {:induction false} LookupAt<K, V>(table: seq<(K, V)>, i: nat, k: K)
    requires i < |table| && table[i].0 == k
    requires forall j :: 0 <= j < i ==> table[j].0 != k
    ensures Lookup(table, k) == Some(table[i].1)
  {
    if i > 0 {
      LookupAt(table[1..], i - 1, k);
    }
  }

  /** Looking up in a concatenation searches the first part, then the second. */
  lemma {:induction false} LookupConcat<K, V>(a: seq<(K, V)>, b: seq<(K, V)>)
    ensures forall k :: Lookup(a + b, k) == if Lookup(a, k).Some? then Lookup(a, k) else Lookup(b, k)
  {
    if a == [] {
      assert a + b == b;
    } else {
      assert (a + b)[1..] == a[1..] + b;
      LookupConcat(a[1..], b);
    }
  }
}
