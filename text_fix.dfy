/**
 * The server's response normaliser (server/index.js:17-72): a one-pass
 * character substitution for legacy-encoded text, and `cleanData`, which
 * applies it to the string values of query rows.
 */
module TextFix {
  import opened Wrappers
  import opened Json

  /** The substitution table `charMap`: `None` where it has no entry (`undefined`). */
  function CharMap(c: char): Option<string>
  {
    match c
    case 'Ý' => Some("İ") case 'ý' => Some("ı")
    case 'Þ' => Some("Ş") case 'þ' => Some("ş")
    case 'Ð' => Some("Ğ") case 'ð' => Some("ğ")
    case 'Ü' => Some("Ü") case 'ü' => Some("ü")
    case 'Ö' => Some("Ö") case 'ö' => Some("ö")
    case 'Ç' => Some("Ç") case 'ç' => Some("ç")
    case 'Ñ' => Some("N") case 'ñ' => Some("n")
    case 'Æ' => Some("AE") case 'æ' => Some("ae")
    case 'Ø' => Some("O") case 'ø' => Some("o")
    case 'Å' => Some("A") case 'å' => Some("a")
    case 'Ä' => Some("A") case 'ä' => Some("a")
    case 'Ë' => Some("E") case 'ë' => Some("e")
    case 'Ï' => Some("I") case 'ï' => Some("i")
    case 'Ò' => Some("O") case 'ò' => Some("o")
    case 'Ù' => Some("U") case 'ù' => Some("u")
    case 'À' => Some("A") case 'à' => Some("a")
    case 'È' => Some("E") case 'è' => Some("e")
    case 'Ì' => Some("I") case 'ì' => Some("i")
    case 'Á' => Some("A") case 'á' => Some("a")
    case 'É' => Some("E") case 'é' => Some("e")
    case 'Í' => Some("I") case 'í' => Some("i")
    case 'Ó' => Some("O") case 'ó' => Some("o")
    case 'Ú' => Some("U") case 'ú' => Some("u")
    case 'Â' => Some("A") case 'â' => Some("a")
    case 'Ê' => Some("E") case 'ê' => Some("e")
    case 'Î' => Some("I") case 'î' => Some("i")
    case 'Ô' => Some("O") case 'ô' => Some("o")
    case 'Û' => Some("U") case 'û' => Some("u")
    case 'Ã' => Some("A") case 'ã' => Some("a")
    case 'Õ' => Some("O") case 'õ' => Some("o")
    case _ => None
  }

  /** The regular-expression class `[ÝýÞþ...Õõ]` the substitution matches. */
  predicate InClass(c: char)
  {
    c == 'Ý' || c == 'ý' || c == 'Þ' || c == 'þ' || c == 'Ð' || c == 'ð' || c == 'Ü' || c == 'ü'
    || c == 'Ö' || c == 'ö' || c == 'Ç' || c == 'ç' || c == 'Ñ' || c == 'ñ' || c == 'Æ' || c == 'æ'
    || c == 'Ø' || c == 'ø' || c == 'Å' || c == 'å' || c == 'Ä' || c == 'ä' || c == 'Ë' || c == 'ë'
    || c == 'Ï' || c == 'ï' || c == 'Ò' || c == 'ò' || c == 'Ù' || c == 'ù' || c == 'À' || c == 'à'
    || c == 'È' || c == 'è' || c == 'Ì' || c == 'ì' || c == 'Ó' || c == 'ó' || c == 'Ú' || c == 'ú'
    || c == 'Â' || c == 'â' || c == 'Ê' || c == 'ê' || c == 'Î' || c == 'î' || c == 'Ô' || c == 'ô'
    || c == 'Û' || c == 'û' || c == 'Ã' || c == 'ã' || c == 'Õ' || c == 'õ'
  }

  /** The matched characters that the table maps to themselves. */
  predicate IsIdentityMapped(c: char)
  {
    c == 'Ü' || c == 'ü' || c == 'Ö' || c == 'ö' || c == 'Ç' || c == 'ç'
  }

  /** Table keys that the class leaves out. */
  predicate IsUnmatchedKey(c: char)
  {
    c == 'Á' || c == 'á' || c == 'É' || c == 'é' || c == 'Í' || c == 'í'
  }

  /** What the replacement callback returns for one character: `charMap[match] || match`. */
  function Replacement(c: char): (r: string)
    ensures 1 <= |r| <= 2
  {
    if InClass(c) then
      match CharMap(c)
      case Some(t) => if t != "" then t else [c]
      case None => [c]
    else [c]
  }

  /** `text.replace(/[...]/g, match => charMap[match] || match)`, one pass from left to right. */
  function FixText(s: string): (r: string)
    ensures |s| <= |r| <= 2 * |s|
  {
    if s == [] then [] else Replacement(s[0]) + FixText(s[1..])
  }

  /** `fixTurkishChars(text)`: anything but a non-empty string is returned as it is. */
  function FixTurkishChars(v: JsValue): (r: JsValue)
    ensures !v.JsString? || v.s == "" ==> r == v
    ensures v.JsString? && v.s != "" ==> r == JsString(FixText(v.s))
  {
    match v
    case JsString(s) => if s == "" then v else JsString(FixText(s))
    case _ => v
  }

  // ---------------------------------------------------------------------
  // Properties of the substitution
  // ---------------------------------------------------------------------

  /** Every character of the class lies in the upper half of Latin-1. */
  lemma ClassIsUpperLatin1(c: char)
    requires InClass(c)
    ensures '\U{00C0}' <= c <= '\U{00FF}'
  {
  }

  /**
   * A character the table can produce: ASCII, a Turkish letter beyond
   * Latin-1, or one of the identity-mapped letters.
   */
  predicate IsTableOutput(c: char) {
    c < '\U{00C0}' || c > '\U{00FF}' || IsIdentityMapped(c)
  }

  /** Every replacement of a matched character is made of table outputs. */
  lemma MatchedReplacementIsTableOutput(c: char)
    requires InClass(c)
    ensures forall i :: 0 <= i < |Replacement(c)| ==> IsTableOutput(Replacement(c)[i])
  {
  }

  /** A table output is its own replacement, and it is in the class only if it is identity-mapped. */
  lemma TableOutputIsFixed(c: char)
    requires IsTableOutput(c)
    ensures Replacement(c) == [c]
    ensures InClass(c) ==> IsIdentityMapped(c)
  {
    if InClass(c) {
      ClassIsUpperLatin1(c);
    }
  }

  /** Every character of every replacement is left alone by a second pass. */
  lemma ReplacementIsStable(c: char)
    ensures forall i :: 0 <= i < |Replacement(c)| ==> Replacement(Replacement(c)[i]) == [Replacement(c)[i]]
  {
    if InClass(c) {
      MatchedReplacementIsTableOutput(c);
      forall i | 0 <= i < |Replacement(c)| ensures Replacement(Replacement(c)[i]) == [Replacement(c)[i]] {
        TableOutputIsFixed(Replacement(c)[i]);
      }
    }
  }

  /** The only replacement characters inside the class are the identity-mapped ones. */
  lemma ReplacementOutputs(c: char)
    ensures forall i :: 0 <= i < |Replacement(c)| && InClass(Replacement(c)[i]) ==>
      IsIdentityMapped(Replacement(c)[i]) && Replacement(Replacement(c)[i]) == [Replacement(c)[i]]
  {
    if InClass(c) {
      MatchedReplacementIsTableOutput(c);
      forall i | 0 <= i < |Replacement(c)| && InClass(Replacement(c)[i])
        ensures IsIdentityMapped(Replacement(c)[i]) && Replacement(Replacement(c)[i]) == [Replacement(c)[i]]
      {
        TableOutputIsFixed(Replacement(c)[i]);
      }
    }
  }

  /** The substitution works character by character. */
  lemma {:induction false} FixTextAppend(a: string, b: string)
    ensures FixText(a + b) == FixText(a) + FixText(b)
  {
    if a == [] {
      assert a + b == b;
    } else {
      assert (a + b)[0] == a[0];
      assert (a + b)[1..] == a[1..] + b;
      FixTextAppend(a[1..], b);
    }
  }

  lemma FixTextOne(c: char)
    ensures FixText([c]) == Replacement(c)
  {
  }

  /** Characters outside the class pass through untouched. */
  lemma {:induction false} FixTextUnmatched(s: string)
    requires forall i :: 0 <= i < |s| ==> !InClass(s[i])
    ensures FixText(s) == s
  {
    if s != [] {
      FixTextUnmatched(s[1..]);
    }
  }

  /** `Á á É é Í í` have table entries but are not in the class, so they are never replaced. */
  lemma UnmatchedKeysPassThrough(s: string)
    requires forall i :: 0 <= i < |s| ==> IsUnmatchedKey(s[i])
    ensures FixText(s) == s
    ensures forall c :: IsUnmatchedKey(c) ==> !InClass(c) && CharMap(c).Some? && CharMap(c).value != [c]
  {
    FixTextUnmatched(s);
  }

  /** Every output character inside the class is one of `Ü ü Ö ö Ç ç`. */
  lemma {:induction false} FixTextOutputs(s: string)
    ensures forall i :: 0 <= i < |FixText(s)| && InClass(FixText(s)[i]) ==> IsIdentityMapped(FixText(s)[i])
  {
    if s != [] {
      ReplacementOutputs(s[0]);
      FixTextOutputs(s[1..]);
      var r, rest := Replacement(s[0]), FixText(s[1..]);
      assert FixText(s) == r + rest;
      forall i | 0 <= i < |r + rest| && InClass((r + rest)[i])
        ensures IsIdentityMapped((r + rest)[i])
      {
        if i >= |r| {
          assert (r + rest)[i] == rest[i - |r|];
        }
      }
    }
  }

  /** Applying the substitution to one replacement changes nothing. */
  lemma {:induction false} FixTextStableOnReplacement(c: char)
    ensures FixText(Replacement(c)) == Replacement(c)
  {
    ReplacementIsStable(c);
    var r := Replacement(c);
    if |r| == 1 {
      assert r == [r[0]];
      FixTextOne(r[0]);
    } else {
      assert r == [r[0]] + [r[1]];
      FixTextOne(r[0]);
      FixTextOne(r[1]);
      FixTextAppend([r[0]], [r[1]]);
    }
  }

  /** The substitution is idempotent. */
  lemma {:induction false} FixTextIdempotent(s: string)
    ensures FixText(FixText(s)) == FixText(s)
  {
    if s != [] {
      FixTextAppend(Replacement(s[0]), FixText(s[1..]));
      FixTextStableOnReplacement(s[0]);
      FixTextIdempotent(s[1..]);
    }
  }

  lemma FixTurkishCharsIdempotent(v: JsValue)
    ensures FixTurkishChars(FixTurkishChars(v)) == FixTurkishChars(v)
  {
    if v.JsString? && v.s != "" {
      FixTextIdempotent(v.s);
    }
  }

  /** Three sample substitutions; the last one makes the text longer. */
  lemma FixTextExamples()
    ensures FixText("Ý") == "İ" && FixText("Þ") == "Ş" && FixText("Æ") == "AE"
  {
    FixTextOne('Ý');
    FixTextOne('Þ');
    FixTextOne('Æ');
  }

  // ---------------------------------------------------------------------
  // cleanData
  // ---------------------------------------------------------------------

  /** What `cleanData` puts under one key of an object. */
  function CleanField(value: JsValue): JsValue
  {
    if value.JsString? then FixTurkishChars(value) else value
  }

  /** The object produced by the `for..of` loop over `Object.entries(data)`. */
  function CleanFields(fields: map<string, JsValue>): (r: map<string, JsValue>)
  {
    map key | key in fields :: CleanField(fields[key])
  }

  /**
   * `cleanData(data)`: arrays element by element, objects one level deep
   * (nested objects and arrays are copied, not cleaned), anything else,
   * `null` included, as it is.
   */
  function Clean(v: JsValue): (r: JsValue)
    ensures r.JsArray? <==> v.JsArray?
    ensures r.JsObject? <==> v.JsObject?
    ensures v.JsArray? ==> |r.items| == |v.items|
    ensures v.JsObject? ==> r.fields.Keys == v.fields.Keys
    decreases v
  {
    match v
    case JsArray(items) => JsArray(seq(|items|, i requires 0 <= i < |items| => Clean(items[i])))
    case JsObject(fields) => JsObject(CleanFields(fields))
    case _ => v
  }

  /** An array is cleaned element-wise, with its length and order kept. */
  lemma CleanArray(items: seq<JsValue>)
    ensures Clean(JsArray(items)).JsArray?
    ensures |Clean(JsArray(items)).items| == |items|
    ensures forall i :: 0 <= i < |items| ==> Clean(JsArray(items)).items[i] == Clean(items[i])
  {
  }

  /** Anything that is neither an array nor an object, `null` and bare strings included, is returned as it is. */
  lemma CleanLeavesScalars(v: JsValue)
    requires !v.JsArray? && !v.JsObject?
    ensures Clean(v) == v
  {
  }

  /** An object keeps every key; string values are fixed, all others are copied unchanged. */
  lemma CleanObject(fields: map<string, JsValue>)
    ensures Clean(JsObject(fields)).JsObject?
    ensures Clean(JsObject(fields)).fields.Keys == fields.Keys
    ensures forall k :: k in fields && fields[k].JsString? ==>
      Clean(JsObject(fields)).fields[k] == FixTurkishChars(fields[k])
    ensures forall k :: k in fields && !fields[k].JsString? ==>
      Clean(JsObject(fields)).fields[k] == fields[k]
  {
  }

  /** A nested object's strings are not fixed. */
  lemma CleanDoesNotRecurseIntoObjects()
    ensures Clean(JsObject(map["inner" := JsObject(map["name" := JsString("Ý")])]))
         == JsObject(map["inner" := JsObject(map["name" := JsString("Ý")])])
  {
    var inner := JsObject(map["name" := JsString("Ý")]);
    var outer := map["inner" := inner];
    assert CleanFields(outer) == outer;
  }

  lemma CleanFieldIdempotent(value: JsValue)
    ensures CleanField(CleanField(value)) == CleanField(value)
  {
    FixTurkishCharsIdempotent(value);
  }

  /** Cleaning twice is cleaning once. */
  lemma {:induction false} CleanIdempotent(v: JsValue)
    ensures Clean(Clean(v)) == Clean(v)
    decreases v
  {
    match v
    case JsArray(items) =>
      forall i | 0 <= i < |items| ensures Clean(Clean(items[i])) == Clean(items[i]) {
        CleanIdempotent(items[i]);
      }
    case JsObject(fields) =>
      forall k | k in fields ensures CleanField(CleanField(fields[k])) == CleanField(fields[k]) {
        CleanFieldIdempotent(fields[k]);
      }
      assert CleanFields(CleanFields(fields)) == CleanFields(fields);
    case _ =>
  }

  // ---------------------------------------------------------------------
  // The loops of cleanData
  // ---------------------------------------------------------------------

  /** The `for..of` loop that fills `cleaned` key by key. */
  method CleanObjectEntries(fields: map<string, JsValue>) returns (cleaned: map<string, JsValue>)
    ensures cleaned == CleanFields(fields)
  {
    cleaned := map[];
    var pending := fields.Keys;
    while pending != {}
      invariant pending <= fields.Keys
      invariant cleaned.Keys == fields.Keys - pending
      invariant forall k :: k in cleaned ==> cleaned[k] == CleanField(fields[k])
      decreases pending
    {
      var key :| key in pending;
      var value := fields[key];
      if value.JsString? {
        cleaned := cleaned[key := FixTurkishChars(value)];
      } else {
        cleaned := cleaned[key := value];
      }
      pending := pending - {key};
    }
  }

  /** `cleanData(data)`, with the array case as a loop over the elements. */
  method CleanData(data: JsValue) returns (r: JsValue)
    ensures r == Clean(data)
    decreases data
  {
    match data {
      case JsArray(items) =>
        var out: seq<JsValue> := [];
        for i := 0 to |items|
          invariant |out| == i
          invariant forall j :: 0 <= j < i ==> out[j] == Clean(items[j])
        {
          var item := CleanData(items[i]);
          out := out + [item];
        }
        r := JsArray(out);
      case JsObject(fields) =>
        var cleaned := CleanObjectEntries(fields);
        r := JsObject(cleaned);
      case _ =>
        r := data;
    }
  }
}
