/**
 * `detect_language`: the heuristic that labels a text Vietnamese (`"vi"`)
 * or English (`"en"`). Rule 1 looks at the share of Vietnamese letters with
 * diacritics, rule 2 at the share of words from a closed list of common
 * Vietnamese words. Case mapping is the parameter `lower`, standing for
 * Python's `str.lower`.
 *
 * The source compares float ratios: `chars / len(text) > 0.05` and
 * `matches / len(words) > 0.2`. Here they are the integer comparisons
 * `20 * chars > len(text)` and `5 * matches > len(words)`. Both give the
 * same answer at the boundary (exactly one in twenty, exactly one in five:
 * not more), and double rounding cannot carry any ratio of two lengths
 * below 2^40 across either threshold.
 */
module LanguageDetection {
  import opened PyStr

  const Vietnamese := "vi"
  const English := "en"

  /** The lower-case Vietnamese letters with diacritics that rule 1 counts, one per code point. */
  const DiacriticLetters := "àáảãạăằắẳẵặâầấẩẫậèéẻẽẹêềếểễệìíỉĩịòóỏõọôồốổỗộơờớởỡợùúủũụưừứửữựỳýỷỹỵđ"

  /** The common Vietnamese words rule 2 looks for. */
  const ViWords: seq<string> := [
    "xin", "chào", "cảm", "ơn", "không", "có", "là", "của", "và", "được",
    "này", "đó", "để", "cho", "với", "trong", "như", "nhưng", "thì", "mà",
    "bạn", "tôi", "anh", "chị", "em", "ông", "bà", "nó", "họ", "chúng",
    "làm", "muốn", "biết", "nói", "giúp", "hỏi", "trả", "lời", "dịch"
  ]

  predicate IsDiacritic(c: char) {
    c in DiacriticLetters
  }

  /** How many characters of `s` are letters with diacritics. */
  function CountDiacritics(s: string): (n: nat)
    ensures n <= |s|
  {
    if s == [] then 0 else (if IsDiacritic(s[0]) then 1 else 0) + CountDiacritics(s[1..])
  }

  /** How many of `words` are in the Vietnamese word list. */
  function CountViWords(words: seq<string>): (n: nat)
    ensures n <= |words|
  {
    if words == [] then 0 else (if words[0] in ViWords then 1 else 0) + CountViWords(words[1..])
  }

  /** Rule 1: more than 5% of the text's characters are letters with diacritics. */
  predicate DiacriticRule(text: string, lower: string -> string) {
    |text| > 0 && 20 * CountDiacritics(lower(text)) > |text|
  }

  /** Rule 2: more than 20% of the lower-cased text's words are in the Vietnamese list. */
  predicate WordRule(text: string, lower: string -> string) {
    var words := Split(lower(text));
    |words| > 0 && 5 * CountViWords(words) > |words|
  }

  /** `detect_language`: always one of the two labels. */
  function DetectLanguage(text: string, lower: string -> string): (lang: string)
    ensures lang == Vietnamese || lang == English
  {
    var chars := CountDiacritics(lower(text));
    if |text| > 0 && 20 * chars > |text| then Vietnamese
    else
      var words := Split(lower(text));
      var matches := CountViWords(words);
      if |words| > 0 && 5 * matches > |words| then Vietnamese
      else English
  }

  /** The label is Vietnamese exactly when one of the two rules fires, and rule 1 alone decides when it fires. */
  lemma DetectLanguageRules(text: string, lower: string -> string)
    ensures DiacriticRule(text, lower) ==> DetectLanguage(text, lower) == Vietnamese
    ensures !DiacriticRule(text, lower) ==> (DetectLanguage(text, lower) == Vietnamese <==> WordRule(text, lower))
    ensures DetectLanguage(text, lower) == English <==> !DiacriticRule(text, lower) && !WordRule(text, lower)
  {
  }

  /** The empty text is English. */
  lemma EmptyTextIsEnglish(lower: string -> string)
    requires lower("") == ""
    ensures DetectLanguage("", lower) == English
  {
    assert Split("") == [];
  }

  lemma {:induction false} NoDiacriticsCountZero(s: string)
    requires forall i :: 0 <= i < |s| ==> !IsDiacritic(s[i])
    ensures CountDiacritics(s) == 0
  {
    if s != [] {
      NoDiacriticsCountZero(s[1..]);
    }
  }

  lemma {:induction false} AllDiacriticsCountAll(s: string)
    requires forall i :: 0 <= i < |s| ==> IsDiacritic(s[i])
    ensures CountDiacritics(s) == |s|
  {
    if s != [] {
      AllDiacriticsCountAll(s[1..]);
    }
  }

  lemma {:induction false} NoListWordsCountZero(words: seq<string>)
    requires forall k :: 0 <= k < |words| ==> words[k] !in ViWords
    ensures CountViWords(words) == 0
  {
    if words != [] {
      NoListWordsCountZero(words[1..]);
    }
  }

  lemma {:induction false} AllListWordsCountAll(words: seq<string>)
    requires forall k :: 0 <= k < |words| ==> words[k] in ViWords
    ensures CountViWords(words) == |words|
  {
    if words != [] {
      AllListWordsCountAll(words[1..]);
    }
  }

  /** A text with no letter with diacritics and no listed word is English. */
  lemma NoEvidenceIsEnglish(text: string, lower: string -> string)
    requires forall i :: 0 <= i < |lower(text)| ==> !IsDiacritic(lower(text)[i])
    requires forall k :: 0 <= k < |Split(lower(text))| ==> Split(lower(text))[k] !in ViWords
    ensures DetectLanguage(text, lower) == English
  {
    NoDiacriticsCountZero(lower(text));
    NoListWordsCountZero(Split(lower(text)));
  }

  /** A non-empty text whose lower-cased form is as long and made only of letters with diacritics is Vietnamese. */
  lemma AllDiacriticsIsVietnamese(text: string, lower: string -> string)
    requires |text| > 0 && |lower(text)| == |text|
    requires forall i :: 0 <= i < |lower(text)| ==> IsDiacritic(lower(text)[i])
    ensures DetectLanguage(text, lower) == Vietnamese
  {
    AllDiacriticsCountAll(lower(text));
  }

  /** A text with at least one word, all of them from the list, is Vietnamese. */
  lemma AllListWordsIsVietnamese(text: string, lower: string -> string)
    requires |Split(lower(text))| > 0
    requires forall k :: 0 <= k < |Split(lower(text))| ==> Split(lower(text))[k] in ViWords
    ensures DetectLanguage(text, lower) == Vietnamese
  {
    AllListWordsCountAll(Split(lower(text)));
  }
}
