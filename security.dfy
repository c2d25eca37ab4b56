/**
 * The string utilities and validators of backend/utils/security.py: `sanitize_input`,
 * `mask_sensitive_data`, `validate_email` and the two `DataValidator` checks.
 */
module Security {
  import opened Wrappers
  import opened Text
  import opened PyValues
  import opened Decimals
  import opened Seqs

  // ---------------------------------------------------------------------------------------
  // sanitize_input

  /** The six characters `sanitize_input` escapes. */
  predicate IsSpecial(c: char) {
    c == '<' || c == '>' || c == '"' || c == '\'' || c == '/' || c == '\\'
  }

  predicate NoSpecials(s: string) {
    forall i :: 0 <= i < |s| ==> !IsSpecial(s[i])
  }

  /** The chain of six `replace` calls, in the source's order. */
  function SanitizeInput(s: string): string {
    var a := ReplaceChar(s, '<', "&lt;");
    var b := ReplaceChar(a, '>', "&gt;");
    var c := ReplaceChar(b, '"', "&quot;");
    var d := ReplaceChar(c, '\'', "&#x27;");
    var e := ReplaceChar(d, '/', "&#x2F;");
    ReplaceChar(e, '\\', "&#x5C;")
  }

  /** The escape of one character: an HTML entity for the six specials, the character otherwise. */
  function Escape(c: char): (r: string)
    ensures NoSpecials(r)
    ensures |r| >= 1
    ensures !IsSpecial(c) <==> r == [c]
  {
    if c == '<' then "&lt;"
    else if c == '>' then "&gt;"
    else if c == '"' then "&quot;"
    else if c == '\'' then "&#x27;"
    else if c == '/' then "&#x2F;"
    else if c == '\\' then "&#x5C;"
    else [c]
  }

  /** The escapes of all characters, concatenated. */
  function EscapeAll(s: string): string {
    if s == [] then [] else Escape(s[0]) + EscapeAll(s[1..])
  }

  lemma SanitizeAppend(a: string, b: string)
    ensures SanitizeInput(a + b) == SanitizeInput(a) + SanitizeInput(b)
  {
    var a1, b1 := ReplaceChar(a, '<', "&lt;"), ReplaceChar(b, '<', "&lt;");
    ReplaceCharAppend(a, b, '<', "&lt;");
    var a2, b2 := ReplaceChar(a1, '>', "&gt;"), ReplaceChar(b1, '>', "&gt;");
    ReplaceCharAppend(a1, b1, '>', "&gt;");
    var a3, b3 := ReplaceChar(a2, '"', "&quot;"), ReplaceChar(b2, '"', "&quot;");
    ReplaceCharAppend(a2, b2, '"', "&quot;");
    var a4, b4 := ReplaceChar(a3, '\'', "&#x27;"), ReplaceChar(b3, '\'', "&#x27;");
    ReplaceCharAppend(a3, b3, '\'', "&#x27;");
    var a5, b5 := ReplaceChar(a4, '/', "&#x2F;"), ReplaceChar(b4, '/', "&#x2F;");
    ReplaceCharAppend(a4, b4, '/', "&#x2F;");
    ReplaceCharAppend(a5, b5, '\\', "&#x5C;");
  }

  /** Replacing in a one-character text. */
  lemma ReplaceSingle(d: char, c: char, t: string)
    ensures ReplaceChar([d], c, t) == if d == c then t else [d]
  {
    assert [d][1..] == [];
  }

  /** A character outside the six passes the chain unchanged. */
  lemma SanitizePlain(c: char)
    requires !IsSpecial(c)
    ensures SanitizeInput([c]) == [c]
  {
  }

  /** The part of the chain after step `k` (numbered from 1). */
  function ChainAfter(x: string, k: nat): string {
    var b := if k < 2 then ReplaceChar(x, '>', "&gt;") else x;
    var c := if k < 3 then ReplaceChar(b, '"', "&quot;") else b;
    var d := if k < 4 then ReplaceChar(c, '\'', "&#x27;") else c;
    var e := if k < 5 then ReplaceChar(d, '/', "&#x2F;") else d;
    if k < 6 then ReplaceChar(e, '\\', "&#x5C;") else e
  }

  /** A text without specials holds none of the six characters. */
  lemma NoSpecialsNotIn(t: string)
    requires NoSpecials(t)
    ensures '<' !in t && '>' !in t && '"' !in t && '\'' !in t && '/' !in t && '\\' !in t
  {
    forall c | c in t ensures !IsSpecial(c) {
      var i :| 0 <= i < |t| && t[i] == c;
    }
  }

  /** An entity has no specials, so no later step of the chain touches it. */
  lemma EntityUntouched(t: string, k: nat)
    requires NoSpecials(t)
    ensures ChainAfter(t, k) == t
  {
    NoSpecialsNotIn(t);
  }

  lemma SanitizeLt()
    ensures SanitizeInput(['<']) == "&lt;"
  {
    ReplaceSingle('<', '<', "&lt;");
    EntityUntouched(Escape('<'), 1);
  }

  lemma SanitizeGt()
    ensures SanitizeInput(['>']) == "&gt;"
  {
    ReplaceSingle('>', '>', "&gt;");
    EntityUntouched(Escape('>'), 2);
  }

  lemma SanitizeQuot()
    ensures SanitizeInput(['"']) == "&quot;"
  {
    ReplaceSingle('"', '"', "&quot;");
    EntityUntouched(Escape('"'), 3);
  }

  lemma SanitizeApos()
    ensures SanitizeInput(['\'']) == "&#x27;"
  {
    ReplaceSingle('\'', '\'', "&#x27;");
    EntityUntouched(Escape('\''), 4);
  }

  lemma SanitizeSlash()
    ensures SanitizeInput(['/']) == "&#x2F;"
  {
    ReplaceSingle('/', '/', "&#x2F;");
    EntityUntouched(Escape('/'), 5);
  }

  lemma SanitizeBackslash()
    ensures SanitizeInput(['\\']) == "&#x5C;"
  {
    ReplaceSingle('\\', '\\', "&#x5C;");
    EntityUntouched(Escape('\\'), 6);
  }

  /** A special character is replaced by its entity once; no later step touches the entity. */
  lemma SanitizeSpecial(c: char)
    requires IsSpecial(c)
    ensures SanitizeInput([c]) == Escape(c)
  {
    if c == '<' {
      SanitizeLt();
    } else if c == '>' {
      SanitizeGt();
    } else if c == '"' {
      SanitizeQuot();
    } else if c == '\'' {
      SanitizeApos();
    } else if c == '/' {
      SanitizeSlash();
    } else {
      SanitizeBackslash();
    }
  }

  /** On one character, the replacement chain is its escape. */
  lemma SanitizeChar(c: char)
    ensures SanitizeInput([c]) == Escape(c)
  {
    if IsSpecial(c) {
      SanitizeSpecial(c);
    } else {
      SanitizePlain(c);
    }
  }

  /** `sanitize_input` is the per-character escape map. */
  lemma {:induction false} SanitizeIsEscapeMap(s: string)
    ensures SanitizeInput(s) == EscapeAll(s)
  {
    if s != [] {
      assert s == [s[0]] + s[1..];
      SanitizeAppend([s[0]], s[1..]);
      SanitizeChar(s[0]);
      SanitizeIsEscapeMap(s[1..]);
    }
  }

  lemma {:induction false} EscapeAllProperties(s: string)
    ensures NoSpecials(EscapeAll(s))
    ensures |EscapeAll(s)| >= |s|
    ensures NoSpecials(s) <==> EscapeAll(s) == s
  {
    if s != [] {
      EscapeAllProperties(s[1..]);
      var e, rest := Escape(s[0]), EscapeAll(s[1..]);
      assert forall i :: 0 <= i < |e + rest| ==> (e + rest)[i] == if i < |e| then e[i] else rest[i - |e|];
      if NoSpecials(s) {
        assert NoSpecials(s[1..]) by {
          assert forall i :: 0 <= i < |s[1..]| ==> s[1..][i] == s[i + 1];
        }
      }
      if EscapeAll(s) == s {
        if IsSpecial(s[0]) {
          assert false;
        }
        assert rest == s[1..];
        assert forall i :: 1 <= i < |s| ==> s[i] == s[1..][i - 1];
      }
    }
  }

  /** The output of `sanitize_input` holds none of the six characters. */
  lemma SanitizedHasNoSpecials(s: string)
    ensures NoSpecials(SanitizeInput(s))
  {
    SanitizeIsEscapeMap(s);
    EscapeAllProperties(s);
  }

  /** A text is left unchanged exactly when it holds none of the six characters. */
  lemma SanitizeFixedPoints(s: string)
    ensures SanitizeInput(s) == s <==> NoSpecials(s)
  {
    SanitizeIsEscapeMap(s);
    EscapeAllProperties(s);
  }

  /** `sanitize_input` is idempotent. */
  lemma SanitizeIdempotent(s: string)
    ensures SanitizeInput(SanitizeInput(s)) == SanitizeInput(s)
  {
    SanitizedHasNoSpecials(s);
    SanitizeFixedPoints(SanitizeInput(s));
  }

  // ---------------------------------------------------------------------------------------
  // mask_sensitive_data

  /** Python's `s[:i]` for any integer `i` (a negative one counts from the end). */
  function SliceTo(s: string, i: int): (r: string)
    ensures 0 <= i <= |s| ==> r == s[..i]
  {
    if i < 0 then (if |s| + i < 0 then [] else s[..|s| + i])
    else if i > |s| then s else s[..i]
  }

  /** Python's `s[i:]` for any integer `i`. */
  function SliceFrom(s: string, i: int): (r: string)
    ensures 0 <= i <= |s| ==> r == s[i..]
  {
    if i < 0 then (if |s| + i < 0 then s else s[|s| + i..])
    else if i > |s| then [] else s[i..]
  }

  /** `mask_sensitive_data(data, visible_chars)` */
  function MaskSensitiveData(data: string, visibleChars: int): string {
    if |data| <= visibleChars * 2 then Stars(|data|)
    else SliceTo(data, visibleChars) + Stars(|data| - visibleChars * 2) + SliceFrom(data, -visibleChars)
  }

  /**
   * With at least one visible character on each side, masking keeps the length: a short text
   * becomes all asterisks, a longer one keeps its first and last v characters and stars the rest.
   */
  lemma MaskKeepsLength(data: string, v: int)
    requires v >= 1
    ensures var r := MaskSensitiveData(data, v);
      && |r| == |data|
      && (|data| <= 2 * v ==> forall i :: 0 <= i < |r| ==> r[i] == '*')
      && (|data| > 2 * v ==>
            && r[..v] == data[..v]
            && r[|data| - v..] == data[|data| - v..]
            && forall i :: v <= i < |data| - v ==> r[i] == '*')
  {
    if |data| > 2 * v {
      var r := MaskSensitiveData(data, v);
      var head, stars, tail := data[..v], Stars(|data| - 2 * v), data[|data| - v..];
      assert r == head + stars + tail;
      assert r[..v] == head;
      assert r[|data| - v..] == tail;
      forall i | v <= i < |data| - v ensures r[i] == '*' {
        assert r[i] == stars[i - v];
      }
    }
  }

  /** With no visible characters, `data[-0:]` is the whole text, so a non-empty text doubles. */
  lemma MaskZeroDoubles(data: string)
    requires data != []
    ensures MaskSensitiveData(data, 0) == Stars(|data|) + data
    ensures |MaskSensitiveData(data, 0)| == 2 * |data|
  {
    assert data[..0] == [];
  }

  // ---------------------------------------------------------------------------------------
  // validate_email

  /** `[a-zA-Z0-9._%+-]` */
  predicate IsLocalChar(c: char) {
    IsAsciiLetter(c) || IsAsciiDigit(c) || c == '.' || c == '_' || c == '%' || c == '+' || c == '-'
  }

  /** `[a-zA-Z0-9.-]` */
  predicate IsDomainChar(c: char) {
    IsAsciiLetter(c) || IsAsciiDigit(c) || c == '.' || c == '-'
  }

  /** `[a-zA-Z0-9._%+-]+` */
  predicate LocalPart(s: string) {
    |s| >= 1 && forall i :: 0 <= i < |s| ==> IsLocalChar(s[i])
  }

  /** `[a-zA-Z0-9.-]+` */
  predicate DomainPart(s: string) {
    |s| >= 1 && forall i :: 0 <= i < |s| ==> IsDomainChar(s[i])
  }

  /** `[a-zA-Z]{2,}` */
  predicate TldPart(s: string) {
    |s| >= 2 && forall i :: 0 <= i < |s| ==> IsAsciiLetter(s[i])
  }

  /** The language of `[a-zA-Z0-9._%+-]+@[a-zA-Z0-9.-]+\.[a-zA-Z]{2,}`, whole-text match. */
  ghost predicate InEmailLanguage(s: string) {
    exists local, domain, tld :: LocalPart(local) && DomainPart(domain) && TldPart(tld)
      && s == local + "@" + domain + "." + tld
  }

  /** The index of the last `c` in `s`, or -1. */
  function LastIndexOf(s: string, c: char): (r: int)
    ensures -1 <= r < |s|
    ensures r >= 0 ==> s[r] == c
    ensures forall i :: r < i < |s| ==> s[i] != c
  {
    if s == [] then -1 else if s[|s| - 1] == c then |s| - 1 else LastIndexOf(s[..|s| - 1], c)
  }

  /**
   * A direct test of the pattern: the text before the first "@" is the local part, and after
   * it the last "." separates the domain from the top-level domain.
   */
  predicate EmailShape(s: string) {
    var local := BeforeFirst(s, '@');
    && |local| < |s| && LocalPart(local)
    && var rest := s[|local| + 1..];
       var j := LastIndexOf(rest, '.');
       && j >= 0 && DomainPart(rest[..j]) && TldPart(rest[j + 1..])
  }

  lemma EmailShapeIsLanguage(s: string)
    ensures EmailShape(s) <==> InEmailLanguage(s)
  {
    if EmailShape(s) {
      ShapeInLanguage(s);
    }
    if InEmailLanguage(s) {
      var local, domain, tld :| LocalPart(local) && DomainPart(domain) && TldPart(tld)
        && s == local + "@" + domain + "." + tld;
      LanguageHasShape(local, domain, tld);
    }
  }

  lemma ShapeInLanguage(s: string)
    requires EmailShape(s)
    ensures InEmailLanguage(s)
  {
    var local := BeforeFirst(s, '@');
    var rest := s[|local| + 1..];
    var j := LastIndexOf(rest, '.');
    var domain, tld := rest[..j], rest[j + 1..];
    JoinAround(rest, j);
    JoinAround(s, |local|);
    assert s == local + ['@'] + (domain + ['.'] + tld);
    JoinParts(local, '@', domain, '.', tld);
    InLanguage(s, local, domain, tld);
  }

  /** A text is what stands before its k-th character, that character, and what follows. */
  lemma JoinAround(s: string, k: int)
    requires 0 <= k < |s|
    ensures s == s[..k] + [s[k]] + s[k + 1..]
  {
  }

  lemma InLanguage(s: string, local: string, domain: string, tld: string)
    requires LocalPart(local) && DomainPart(domain) && TldPart(tld)
    requires s == local + "@" + domain + "." + tld
    ensures InEmailLanguage(s)
  {
  }

  lemma LanguageHasShape(local: string, domain: string, tld: string)
    requires LocalPart(local) && DomainPart(domain) && TldPart(tld)
    ensures EmailShape(local + "@" + domain + "." + tld)
  {
    var rest := domain + "." + tld;
    assert local + "@" + domain + "." + tld == local + "@" + rest;
    AtSplit(local, rest);
    DotSplit(domain, tld);
  }

  /** A local part holds no "@", so the first "@" ends it. */
  lemma AtSplit(local: string, rest: string)
    requires LocalPart(local)
    ensures var s := local + "@" + rest;
      BeforeFirst(s, '@') == local && |local| < |s| && s[|local| + 1..] == rest
  {
    assert '@' !in local by {
      assert forall i :: 0 <= i < |local| ==> IsLocalChar(local[i]);
    }
    var s := local + "@" + rest;
    assert s == local + ['@'] + rest;
    SplitAtFirst(local, '@', rest);
    assert s[|local| + 1..] == rest;
  }

  /** A top-level domain holds no ".", so the last "." of `domain.tld` ends the domain. */
  lemma DotSplit(domain: string, tld: string)
    requires DomainPart(domain) && TldPart(tld)
    ensures var rest := domain + "." + tld;
      LastIndexOf(rest, '.') == |domain| && rest[..|domain|] == domain && rest[|domain| + 1..] == tld
  {
    assert '.' !in tld by {
      assert forall i :: 0 <= i < |tld| ==> IsAsciiLetter(tld[i]);
    }
    var rest := domain + "." + tld;
    assert rest == domain + ['.'] + tld;
    LastIndexAfter(domain, '.', tld);
    assert rest[..|domain|] == domain && rest[|domain| + 1..] == tld;
  }

  lemma LastIndexAfter(a: string, c: char, b: string)
    requires c !in b
    ensures LastIndexOf(a + [c] + b, c) == |a|
  {
    var s := a + [c] + b;
    assert s[|a|] == c;
  }

  /**
   * `validate_email`: `re.match` of the pattern; `$` also matches just before a final newline,
   * so a valid address followed by "\n" is accepted too.
   */
  function ValidateEmail(email: string): (r: bool)
    ensures r <==> || InEmailLanguage(email)
                   || (|email| >= 1 && email[|email| - 1] == '\n' && InEmailLanguage(email[..|email| - 1]))
  {
    EmailShapeIsLanguage(email);
    EmailShapeIsLanguage(if |email| >= 1 then email[..|email| - 1] else email);
    EmailShape(email) || (|email| >= 1 && email[|email| - 1] == '\n' && EmailShape(email[..|email| - 1]))
  }

  /** The text holds exactly one "@". */
  ghost predicate HasOneAt(s: string) {
    exists k :: 0 <= k < |s| && s[k] == '@' && forall i :: 0 <= i < |s| && i != k ==> s[i] != '@'
  }

  /** An address in the language holds exactly one "@". */
  lemma LanguageHasOneAt(s: string)
    requires InEmailLanguage(s)
    ensures HasOneAt(s)
  {
    var local, domain, tld :| LocalPart(local) && DomainPart(domain) && TldPart(tld)
      && s == local + "@" + domain + "." + tld;
    var k := |local|;
    assert s[k] == '@';
    forall i | 0 <= i < |s| && i != k ensures s[i] != '@' {
      if i < k {
        assert s[i] == local[i] && IsLocalChar(local[i]);
      } else if i < k + 1 + |domain| {
        assert s[i] == domain[i - k - 1] && IsDomainChar(domain[i - k - 1]);
      } else if i > k + 1 + |domain| {
        assert s[i] == tld[i - k - 2 - |domain|] && IsAsciiLetter(tld[i - k - 2 - |domain|]);
      }
    }
  }

  /** A final newline adds no "@". */
  lemma OneAtWithNewline(email: string)
    requires |email| >= 1 && email[|email| - 1] == '\n' && HasOneAt(email[..|email| - 1])
    ensures HasOneAt(email)
  {
    var body := email[..|email| - 1];
    var k :| 0 <= k < |body| && body[k] == '@' && forall i :: 0 <= i < |body| && i != k ==> body[i] != '@';
    assert email[k] == '@';
    forall i | 0 <= i < |email| && i != k ensures email[i] != '@' {
      if i < |body| {
        assert email[i] == body[i];
      }
    }
  }

  /** Every address `validate_email` accepts holds exactly one "@". */
  lemma AcceptedEmailHasOneAt(email: string)
    requires ValidateEmail(email)
    ensures HasOneAt(email)
  {
    if InEmailLanguage(email) {
      LanguageHasOneAt(email);
    } else {
      LanguageHasOneAt(email[..|email| - 1]);
      OneAtWithNewline(email);
    }
  }

  // ---------------------------------------------------------------------------------------
  // DataValidator

  /** The `(bool, str)` pair the validators return. */
  datatype Verdict = Verdict(ok: bool, message: string)

  const REQUIRED_FIELDS: seq<string> := ["descricao", "valor", "tipo", "categoria"]

  /** The first of `fields` that is not a key of `data`. */
  function FirstMissing(data: map<string, Value>, fields: seq<string>): (r: Option<string>)
    ensures r.None? <==> forall i :: 0 <= i < |fields| ==> fields[i] in data
    ensures r.Some? ==> r.value in fields && r.value !in data
  {
    if fields == [] then None
    else if fields[0] !in data then Some(fields[0])
    else FirstMissing(data, fields[1..])
  }

  /** The field reported is the first missing one: every field before it is present. */
  lemma {:induction false} FirstMissingIsFirst(data: map<string, Value>, fields: seq<string>)
    requires FirstMissing(data, fields).Some?
    ensures exists k :: (0 <= k < |fields| && fields[k] == FirstMissing(data, fields).value
      && forall i :: 0 <= i < k ==> fields[i] in data)
  {
    if fields[0] !in data {
      assert fields[0] == FirstMissing(data, fields).value;
    } else {
      FirstMissingIsFirst(data, fields[1..]);
      var k :| 0 <= k < |fields[1..]| && fields[1..][k] == FirstMissing(data, fields[1..]).value
        && forall i :: 0 <= i < k ==> fields[1..][i] in data;
      assert fields[k + 1] == FirstMissing(data, fields).value;
      assert forall i :: 1 <= i < k + 1 ==> fields[i] == fields[1..][i - 1];
    }
  }

  /** The four fields `DataValidator.validate_transaction_data` requires are present. */
  predicate HasRequiredFields(data: map<string, Value>) {
    "descricao" in data && "valor" in data && "tipo" in data && "categoria" in data
  }

  lemma RequiredFieldsPresent(data: map<string, Value>)
    ensures FirstMissing(data, REQUIRED_FIELDS).None? <==> HasRequiredFields(data)
  {
    if FirstMissing(data, REQUIRED_FIELDS).None? {
      assert REQUIRED_FIELDS[0] in data && REQUIRED_FIELDS[1] in data;
      assert REQUIRED_FIELDS[2] in data && REQUIRED_FIELDS[3] in data;
    }
    if HasRequiredFields(data) {
      forall i | 0 <= i < |REQUIRED_FIELDS| ensures REQUIRED_FIELDS[i] in data {
        assert i == 0 || i == 1 || i == 2 || i == 3;
      }
    }
  }

  function MissingFieldMessage(field: string): string {
    "Campo obrigatório '" + field + "' ausente"
  }

  /** A missing-field message is none of the other messages: it alone starts with "C". */
  lemma MissingFieldMessageDistinct(field: string)
    ensures MissingFieldMessage(field) !in {INVALID_VALUE, INVALID_TYPE, EMPTY_DESCRIPTION, UNSAFE_DESCRIPTION, VALIDATION_OK}
  {
    assert MissingFieldMessage(field)[0] == 'C';
  }

  const INVALID_VALUE: string := "Valor deve ser um número positivo"
  const INVALID_TYPE: string := "Tipo deve ser 'despesa' ou 'ganho'"
  const EMPTY_DESCRIPTION: string := "Descrição não pode ser vazia"
  const UNSAFE_DESCRIPTION: string := "Descrição contém caracteres inválidos"
  const VALIDATION_OK: string := "Validação bem-sucedida"
  const INVALID_EMAIL: string := "Email inválido"

  /** `not isinstance(valor, (int, float)) or valor <= 0` */
  predicate BadValue(v: Value) {
    !IsIntOrFloat(v) || NumberOf(v) <= 0.0
  }

  /** `tipo not in ["despesa", "ganho"]` */
  predicate BadType(v: Value) {
    v != Str("despesa") && v != Str("ganho")
  }

  /** The fields are present and `valor` and `tipo` pass: what the description is checked after. */
  predicate FieldsPass(data: map<string, Value>) {
    HasRequiredFields(data) && !BadValue(data["valor"]) && !BadType(data["tipo"])
  }

  /** `not descricao or not descricao.strip()`, for a description whose `strip` does not raise. */
  predicate EmptyDescription(d: Value) {
    !Truthy(d) || (d.Str? && IsBlank(d.s))
  }

  /**
   * `DataValidator.validate_transaction_data`: the checks in order, each ending the call with
   * its message; calling `strip` on a truthy non-text description raises AttributeError.
   */
  function ValidateTransactionData(data: map<string, Value>): (r: Result<Verdict, Exception>)
    ensures FirstMissing(data, REQUIRED_FIELDS).Some? ==>
      r == Ok(Verdict(false, MissingFieldMessage(FirstMissing(data, REQUIRED_FIELDS).value)))
    ensures r == Ok(Verdict(false, INVALID_VALUE)) <==> HasRequiredFields(data) && BadValue(data["valor"])
    ensures r == Ok(Verdict(false, INVALID_TYPE)) <==>
      HasRequiredFields(data) && !BadValue(data["valor"]) && BadType(data["tipo"])
    ensures r == Ok(Verdict(false, EMPTY_DESCRIPTION)) <==> FieldsPass(data) && EmptyDescription(data["descricao"])
    ensures r == Ok(Verdict(false, UNSAFE_DESCRIPTION)) <==>
      FieldsPass(data) && data["descricao"].Str? && !IsBlank(data["descricao"].s) && !NoSpecials(data["descricao"].s)
    ensures r.Err? <==> FieldsPass(data) && Truthy(data["descricao"]) && !data["descricao"].Str?
    ensures r.Err? ==> r.error == AttributeError
    ensures r == Ok(Verdict(true, VALIDATION_OK)) <==>
      && FieldsPass(data)
      && data["descricao"].Str? && !IsBlank(data["descricao"].s) && NoSpecials(data["descricao"].s)
  {
    RequiredFieldsPresent(data);
    var missing := FirstMissing(data, REQUIRED_FIELDS);
    MissingFieldMessageDistinct(if missing.Some? then missing.value else "");
    if missing.Some? then Ok(Verdict(false, MissingFieldMessage(missing.value)))
    else if BadValue(data["valor"]) then Ok(Verdict(false, INVALID_VALUE))
    else if BadType(data["tipo"]) then Ok(Verdict(false, INVALID_TYPE))
    else DescriptionVerdict(data["descricao"])
  }

  /**
   * The description checks: falsy or blank is "empty", `strip` of a truthy non-text raises
   * AttributeError, and text that `sanitize_input` would change is unsafe.
   */
  function DescriptionVerdict(descricao: Value): (r: Result<Verdict, Exception>)
    ensures r.Err? <==> Truthy(descricao) && !descricao.Str?
    ensures r.Err? ==> r.error == AttributeError
    ensures r.Ok? && !r.value.ok ==> r.value.message in {EMPTY_DESCRIPTION, UNSAFE_DESCRIPTION}
    ensures r == Ok(Verdict(false, EMPTY_DESCRIPTION)) <==> EmptyDescription(descricao)
    ensures r == Ok(Verdict(false, UNSAFE_DESCRIPTION)) <==>
      descricao.Str? && !IsBlank(descricao.s) && !NoSpecials(descricao.s)
    ensures r == Ok(Verdict(true, VALIDATION_OK)) <==> descricao.Str? && !IsBlank(descricao.s) && NoSpecials(descricao.s)
  {
    SanitizeFixedPoints(if descricao.Str? then descricao.s else []);
    if !Truthy(descricao) then Ok(Verdict(false, EMPTY_DESCRIPTION))
    else if !descricao.Str? then Err(AttributeError)
    else if IsBlank(descricao.s) then Ok(Verdict(false, EMPTY_DESCRIPTION))
    else if SanitizeInput(descricao.s) != descricao.s then Ok(Verdict(false, UNSAFE_DESCRIPTION))
    else Ok(Verdict(true, VALIDATION_OK))
  }

  /** The category is only required to be present: its value never changes the verdict. */
  lemma CategoryValueIgnored(data: map<string, Value>, v: Value)
    requires "categoria" in data
    ensures ValidateTransactionData(data["categoria" := v]) == ValidateTransactionData(data)
  {
    var d := data["categoria" := v];
    assert FirstMissing(d, REQUIRED_FIELDS) == FirstMissing(data, REQUIRED_FIELDS);
  }

  /**
   * `DataValidator.validate_user_data`: a missing or falsy email is invalid; a truthy non-text
   * one makes `re.match` raise TypeError.
   */
  function ValidateUserData(data: map<string, Value>): (r: Result<Verdict, Exception>)
    ensures r == Ok(Verdict(true, VALIDATION_OK)) <==> "email" in data && data["email"].Str? && ValidateEmail(data["email"].s)
    ensures r.Ok? && !r.value.ok ==> r.value.message == INVALID_EMAIL
    ensures r.Err? <==> Truthy(Get(data, "email")) && !Get(data, "email").Str?
    ensures r.Err? ==> r.error == TypeError
  {
    var email := Get(data, "email");
    if !Truthy(email) then Ok(Verdict(false, INVALID_EMAIL))
    else if !email.Str? then Err(TypeError)
    else if !ValidateEmail(email.s) then Ok(Verdict(false, INVALID_EMAIL))
    else Ok(Verdict(true, VALIDATION_OK))
  }
}
