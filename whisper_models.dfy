/** The table from a Whisper model size and audio language to the name of
    the faster-whisper model to load. */
module WhisperModels {
  import opened Wrappers

  const Prefix: string := "Systran/faster-whisper-"

  /** The sizes with an English-only variant. */
  predicate HasEnglishVariant(size: string) {
    size == "tiny" || size == "base" || size == "small" || size == "medium"
  }

  /** `model_size_and_audio_lang_to_model`; `lang` None is Python's None. */
  function ModelFor(size: string, lang: Option<string>): (r: Result<string>)
    ensures r.Ok? <==> HasEnglishVariant(size) || size == "large"
    ensures r.Err? ==> r.error.ValueError?
    ensures r.Ok? ==> Prefix <= r.value
  {
    if HasEnglishVariant(size) then
      if lang == Some("en") then Ok(Prefix + size + ".en") else Ok(Prefix + size)
    else if size == "large" then Ok(Prefix + "large-v3")
    else Err(ValueError("No matching model found"))
  }

  /** English audio on a size with an English-only variant selects that
      variant; any other language, or none, selects the multilingual model. */
  lemma {:induction false} EnglishVariant(size: string, lang: Option<string>)
    requires HasEnglishVariant(size)
    ensures lang == Some("en") ==> ModelFor(size, lang) == Ok(Prefix + size + ".en")
    ensures lang != Some("en") ==> ModelFor(size, lang) == Ok(Prefix + size)
  {
  }

  /** "large" ignores the language and always selects large-v3. */
  lemma {:induction false} LargeIgnoresLanguage(lang: Option<string>)
    ensures ModelFor("large", lang) == Ok(Prefix + "large-v3")
  {
  }

  /** Different supported (size, English-or-not) choices give different names:
      the table is injective on what it distinguishes. */
  lemma {:induction false} NamesDistinguishSize(s1: string, s2: string, l1: Option<string>, l2: Option<string>)
    requires ModelFor(s1, l1).Ok? && ModelFor(s2, l2).Ok?
    requires ModelFor(s1, l1) == ModelFor(s2, l2)
    ensures s1 == s2
    ensures HasEnglishVariant(s1) ==> (l1 == Some("en") <==> l2 == Some("en"))
  {
    var n := ModelFor(s1, l1).value;
    assert n[..|Prefix|] == Prefix;
    var tail := n[|Prefix|..];
    assert tail == Tail(s1, l1) && tail == Tail(s2, l2);
    TailDistinct(s1, s2, l1, l2);
  }

  function Tail(size: string, lang: Option<string>): string {
    if HasEnglishVariant(size) then (if lang == Some("en") then size + ".en" else size) else "large-v3"
  }

  lemma {:induction false} TailDistinct(s1: string, s2: string, l1: Option<string>, l2: Option<string>)
    requires HasEnglishVariant(s1) || s1 == "large"
    requires HasEnglishVariant(s2) || s2 == "large"
    requires Tail(s1, l1) == Tail(s2, l2)
    ensures s1 == s2
    ensures HasEnglishVariant(s1) ==> (l1 == Some("en") <==> l2 == Some("en"))
  {
    var t := Tail(s1, l1);
    if |t| >= 2 && t[1] == 'i' { assert s1 == "tiny" && s2 == "tiny"; }
  }
}
