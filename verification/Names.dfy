/** Custom address names and the ownership message that a signature commits to. */
module Names {
  import opened Wrappers

  datatype NameError = WrongLength | WrongCharacter | WrongEdge | IsArkAddress

  // ---------- Strings ----------

  /** Unicode `White_Space`, which `str::trim` removes. */
  predicate IsWhitespace(c: char) {
    var code := c as int;
    || 0x09 <= code <= 0x0D || code in {0x20, 0x85, 0xA0, 0x1680} || 0x2000 <= code <= 0x200A
    || code in {0x2028, 0x2029, 0x202F, 0x205F, 0x3000}
  }

  function TrimStart(s: string): string {
    if s != [] && IsWhitespace(s[0]) then TrimStart(s[1..]) else s
  }

  function TrimEnd(s: string): string {
    if s != [] && IsWhitespace(s[|s| - 1]) then TrimEnd(s[..|s| - 1]) else s
  }

  function Trim(s: string): string { TrimEnd(TrimStart(s)) }

  function LowerChar(c: char): char {
    if 'A' <= c <= 'Z' then (c as int + 32) as char else c
  }

  function ToAsciiLowercase(s: string): string {
    seq(|s|, i requires 0 <= i < |s| => LowerChar(s[i]))
  }

  /** The UTF-8 length in bytes, which is what `str::len` counts. */
  function ByteLength(s: string): nat {
    if s == [] then 0
    else
      var code := s[0] as int;
      (if code < 0x80 then 1 else if code < 0x800 then 2 else if code < 0x10000 then 3 else 4) + ByteLength(s[1..])
  }

  predicate IsAlphanumeric(c: char) { 'a' <= c <= 'z' || '0' <= c <= '9' }

  predicate IsNameChar(c: char) { IsAlphanumeric(c) || c == '-' || c == '_' }

  // ---------- Normalization ----------

  /** `normalize_custom_address_name`; `isAddress` stands for `parse_receive_address(..).is_ok()`. */
  function Normalize(isAddress: string -> bool, input: string): (r: Result<string, NameError>) {
    var name := ToAsciiLowercase(Trim(input));
    if ByteLength(name) < 3 || ByteLength(name) > 32 then Err(WrongLength)
    else if exists i :: 0 <= i < |name| && !IsNameChar(name[i]) then Err(WrongCharacter)
    else if name == [] then assert false; Err(WrongLength)
    else if !IsAlphanumeric(name[0]) || !IsAlphanumeric(name[|name| - 1]) then Err(WrongEdge)
    else if isAddress(name) then Err(IsArkAddress)
    else Ok(name)
  }

  /** The published grammar: 3 to 32 letters, digits, hyphens and underscores, with a letter or digit at both ends. */
  predicate InGrammar(name: string) {
    && 3 <= |name| <= 32
    && forall i :: 0 <= i < |name| ==>
         'a' <= name[i] <= 'z' || '0' <= name[i] <= '9' || (name[i] in "-_" && 0 < i < |name| - 1)
  }

  predicate IsCanonical(isAddress: string -> bool, name: string) { InGrammar(name) && !isAddress(name) }

  lemma {:induction false} AsciiByteLength(s: string)
    requires forall i :: 0 <= i < |s| ==> s[i] as int < 0x80
    ensures ByteLength(s) == |s|
  {
    if s != [] {
      AsciiByteLength(s[1..]);
    }
  }

  // ---------- What may be written for a name ----------

  /** The 25 code points with the Unicode property `White_Space`. */
  const WHITE_SPACE := "\t\n\U{0B}\U{0C}\r \U{85}\U{A0}\U{1680}"
    + "\U{2000}\U{2001}\U{2002}\U{2003}\U{2004}\U{2005}\U{2006}\U{2007}\U{2008}\U{2009}\U{200A}"
    + "\U{2028}\U{2029}\U{202F}\U{205F}\U{3000}"

  ghost predicate IsBlank(s: string) { forall i :: 0 <= i < |s| ==> s[i] in WHITE_SPACE }

  /** The same letters, where capitals may stand for small ones. */
  ghost predicate SameButCase(written: string, name: string) {
    && |written| == |name|
    && forall i :: 0 <= i < |name| ==>
         || written[i] == name[i]
         || ('A' <= written[i] <= 'Z' && written[i] as int - 'A' as int == name[i] as int - 'a' as int)
  }

  /** The input is this name, but for its case and blanks around it. */
  ghost predicate Writes(input: string, name: string) {
    exists before, written, after ::
      input == before + written + after && IsBlank(before) && IsBlank(after) && SameButCase(written, name)
  }

  lemma WhitespaceListed(c: char)
    ensures IsWhitespace(c) <==> c in WHITE_SPACE
  {
  }

  lemma {:induction false} TrimStartSplits(s: string) returns (before: string)
    ensures s == before + TrimStart(s) && IsBlank(before)
    ensures TrimStart(s) != [] ==> !IsWhitespace(TrimStart(s)[0])
  {
    if s != [] && IsWhitespace(s[0]) {
      var rest := TrimStartSplits(s[1..]);
      WhitespaceListed(s[0]);
      before := [s[0]] + rest;
    } else {
      before := [];
    }
  }

  lemma {:induction false} TrimEndSplits(s: string) returns (after: string)
    ensures s == TrimEnd(s) + after && IsBlank(after)
  {
    if s != [] && IsWhitespace(s[|s| - 1]) {
      var init, last := s[..|s| - 1], s[|s| - 1];
      var rest := TrimEndSplits(init);
      WhitespaceListed(last);
      after := rest + [last];
      assert s == init + [last] && TrimEnd(init) + rest + [last] == TrimEnd(init) + after;
    } else {
      after := [];
    }
  }

  lemma {:induction false} TrimStartDrops(before: string, rest: string)
    requires IsBlank(before) && rest != [] && !IsWhitespace(rest[0])
    ensures TrimStart(before + rest) == rest
    decreases |before|
  {
    if before == [] {
      assert before + rest == rest;
    } else {
      WhitespaceListed(before[0]);
      assert (before + rest)[1..] == before[1..] + rest;
      TrimStartDrops(before[1..], rest);
    }
  }

  lemma {:induction false} TrimEndDrops(rest: string, after: string)
    requires IsBlank(after) && rest != [] && !IsWhitespace(rest[|rest| - 1])
    ensures TrimEnd(rest + after) == rest
    decreases |after|
  {
    if after == [] {
      assert rest + after == rest;
    } else {
      var init := after[..|after| - 1];
      WhitespaceListed(after[|after| - 1]);
      assert (rest + after)[..|rest + after| - 1] == rest + init;
      TrimEndDrops(rest, init);
    }
  }

  lemma TrimDrops(before: string, written: string, after: string)
    requires IsBlank(before) && IsBlank(after) && written != []
    requires !IsWhitespace(written[0]) && !IsWhitespace(written[|written| - 1])
    ensures Trim(before + written + after) == written
  {
    assert before + written + after == before + (written + after);
    TrimStartDrops(before, written + after);
    TrimEndDrops(written, after);
  }

  /** What is written for a name of the grammar has no blank at an end, and becomes the name in lower case. */
  lemma WrittenName(written: string, name: string)
    requires InGrammar(name) && SameButCase(written, name)
    ensures !IsWhitespace(written[0]) && !IsWhitespace(written[|written| - 1]) && ToAsciiLowercase(written) == name
  {
  }

  lemma LowercaseIsWritten(written: string)
    ensures SameButCase(written, ToAsciiLowercase(written))
  {
  }

  lemma WrittenNormalizes(isAddress: string -> bool, input: string, name: string)
    requires IsCanonical(isAddress, name) && Writes(input, name)
    ensures Normalize(isAddress, input) == Ok(name)
  {
    var before, written, after :|
      input == before + written + after && IsBlank(before) && IsBlank(after) && SameButCase(written, name);
    WrittenName(written, name);
    TrimDrops(before, written, after);
    AsciiByteLength(name);
  }

  lemma TrimmedIsWritten(input: string)
    ensures Writes(input, ToAsciiLowercase(Trim(input)))
  {
    var before := TrimStartSplits(input);
    var after := TrimEndSplits(TrimStart(input));
    LowercaseIsWritten(Trim(input));
    assert input == before + Trim(input) + after;
  }

  lemma NormalizedIsCanonical(isAddress: string -> bool, input: string, name: string)
    requires Normalize(isAddress, input) == Ok(name)
    ensures IsCanonical(isAddress, name) && name == ToAsciiLowercase(Trim(input))
  {
    AsciiByteLength(name);
  }

  /** Normalization accepts exactly what is written for a name of the published grammar, and returns that name. */
  lemma NormalizeMeaning(isAddress: string -> bool, input: string, name: string)
    ensures Normalize(isAddress, input) == Ok(name) <==> IsCanonical(isAddress, name) && Writes(input, name)
  {
    if Normalize(isAddress, input) == Ok(name) {
      NormalizedIsCanonical(isAddress, input, name);
      TrimmedIsWritten(input);
    }
    if IsCanonical(isAddress, name) && Writes(input, name) {
      WrittenNormalizes(isAddress, input, name);
    }
  }

  /** The image of normalization is the set of its fixed points, which is the published grammar. */
  lemma NormalizeFixes(isAddress: string -> bool, name: string)
    ensures Normalize(isAddress, name) == Ok(name) <==> IsCanonical(isAddress, name)
  {
    NormalizeMeaning(isAddress, name, name);
    if IsCanonical(isAddress, name) {
      assert name == "" + name + "" && SameButCase(name, name);
    }
  }

  lemma NormalizeIdempotent(isAddress: string -> bool, input: string)
    requires Normalize(isAddress, input).Ok?
    ensures Normalize(isAddress, Normalize(isAddress, input).value) == Normalize(isAddress, input)
  {
    NormalizeMeaning(isAddress, input, Normalize(isAddress, input).value);
    NormalizeFixes(isAddress, Normalize(isAddress, input).value);
  }

  // ---------- The ownership message ----------

  const HEADING := "arkzap.me custom address\nname: "
  const DOMAIN_LABEL := "\ndomain: "
  const ADDRESS_LABEL := "\nark_address: "

  function SignatureMessage(domain: string, name: string, arkAddress: string): string {
    HEADING + name + DOMAIN_LABEL + domain + ADDRESS_LABEL + arkAddress
  }

  /** Two texts that agree up to a line end after a line without one have the same line. */
  lemma SameFirstLine(a: string, restA: string, b: string, restB: string)
    requires '\n' !in a && '\n' !in b
    requires restA != [] && restB != [] && restA[0] == '\n' && restB[0] == '\n'
    requires a + restA == b + restB
    ensures a == b && restA == restB
  {
    var text := a + restA;
    assert text[|a|] == '\n' && text[|b|] == '\n';
    assert forall i :: 0 <= i < |a| ==> text[i] != '\n';
    assert forall i :: 0 <= i < |b| ==> text[i] == b[i] && text[i] != '\n';
    assert a == text[..|a|] && b == text[..|b|];
    assert restA == text[|a|..] && restB == text[|b|..];
  }

  /** In a text that ends with the address label and one more line, the label starts the last line end. */
  lemma LastLineEnd(rest: string, a: string)
    requires '\n' !in a
    ensures var text := rest + ADDRESS_LABEL + a;
      text[|rest|] == '\n' && forall i :: |rest| < i < |text| ==> text[i] != '\n'
  {
    var text := rest + ADDRESS_LABEL + a;
    forall i | |rest| < i < |text| ensures text[i] != '\n' {
      assert text[i] == (ADDRESS_LABEL + a)[i - |rest|];
    }
  }

  lemma SameLastLine(restA: string, a: string, restB: string, b: string)
    requires '\n' !in a && '\n' !in b
    requires restA + ADDRESS_LABEL + a == restB + ADDRESS_LABEL + b
    ensures a == b && restA == restB
  {
    var text := restA + ADDRESS_LABEL + a;
    LastLineEnd(restA, a);
    LastLineEnd(restB, b);
    assert restA == text[..|restA|] && restB == text[..|restB|];
    assert a == text[|restA| + |ADDRESS_LABEL|..] && b == text[|restB| + |ADDRESS_LABEL|..];
  }

  lemma AfterHeading(domain: string, name: string, arkAddress: string)
    ensures SignatureMessage(domain, name, arkAddress)
      == HEADING + (name + (DOMAIN_LABEL + domain + ADDRESS_LABEL + arkAddress))
  {
    assert HEADING + name + DOMAIN_LABEL + domain + ADDRESS_LABEL + arkAddress
        == HEADING + (name + (DOMAIN_LABEL + domain + ADDRESS_LABEL + arkAddress));
  }

  lemma SamePrefix(prefix: string, a: string, b: string)
    requires prefix + a == prefix + b
    ensures a == b
  {
    assert a == (prefix + a)[|prefix|..] && b == (prefix + b)[|prefix|..];
  }

  /** A message names one registry entry: the domain may contain anything, even line ends and labels. */
  lemma MessageInjective(domain1: string, name1: string, ark1: string, domain2: string, name2: string, ark2: string)
    requires '\n' !in name1 && '\n' !in name2 && '\n' !in ark1 && '\n' !in ark2
    requires SignatureMessage(domain1, name1, ark1) == SignatureMessage(domain2, name2, ark2)
    ensures domain1 == domain2 && name1 == name2 && ark1 == ark2
  {
    var rest1 := DOMAIN_LABEL + domain1 + ADDRESS_LABEL + ark1;
    var rest2 := DOMAIN_LABEL + domain2 + ADDRESS_LABEL + ark2;
    AfterHeading(domain1, name1, ark1);
    AfterHeading(domain2, name2, ark2);
    SamePrefix(HEADING, name1 + rest1, name2 + rest2);
    SameFirstLine(name1, rest1, name2, rest2);
    SameLastLine(DOMAIN_LABEL + domain1, ark1, DOMAIN_LABEL + domain2, ark2);
    SamePrefix(DOMAIN_LABEL, domain1, domain2);
  }

  lemma CanonicalHasNoLineEnd(isAddress: string -> bool, name: string)
    requires IsCanonical(isAddress, name)
    ensures '\n' !in name
  {
  }

  /** Without the newline condition on the address the claim is false: a domain can borrow from it. */
  lemma MessageAmbiguousWithLineEnds()
    ensures SignatureMessage("d", "alice", "a\nark_address: b") == SignatureMessage("d\nark_address: a", "alice", "b")
  {
  }
}
