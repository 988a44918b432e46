/**
 * The resume heuristics of the main backend service: the name derived from an email address and
 * the order in which the name sources are tried, the keyword skill scan, the line-by-line
 * experience scanner with its two registers, the education-line scan, and the single-use
 * password-reset tokens. spaCy and the two regular expressions of the experience scanner are
 * inputs; the user table, never defined in the service, is an explicit map.
 */
module MainService {
  import opened Wrappers
  import opened Text
  import opened LineScan

  // ---------------------------------------------------------------------------------------
  // The name

  /** The characters `re.sub(r'[._0-9]', ' ', ...)` turns into spaces. */
  predicate IsNameSeparator(c: char) {
    c == '.' || c == '_' || IsDigit(c)
  }

  function SeparatorsToSpaces(s: string): (r: string)
    ensures |r| == |s|
    ensures forall i :: 0 <= i < |s| ==> r[i] == if IsNameSeparator(s[i]) then ' ' else s[i]
  {
    seq(|s|, i requires 0 <= i < |s| => if IsNameSeparator(s[i]) then ' ' else s[i])
  }

  function CapitalizeAll(words: seq<string>): (r: seq<string>)
    ensures |r| == |words| && forall k :: 0 <= k < |r| ==> r[k] == Capitalize(words[k])
  {
    seq(|words|, k requires 0 <= k < |words| => Capitalize(words[k]))
  }

  /** The capitalised words of the local part of an email, separators read as spaces. */
  function EmailNameParts(email: string): seq<string> {
    CapitalizeAll(Words(SeparatorsToSpaces(BeforeFirst(email, '@'))))
  }

  /** `_extract_name_from_email` */
  function NameFromEmail(email: string): (name: Option<string>)
    ensures email == "" ==> name.None?
  {
    if email == "" then None
    else
      var parts := EmailNameParts(email);
      if |parts| > 0 then Some(Join(parts, " ")) else None
  }

  /** A local part with nothing but separators and whitespace. */
  predicate BlankLocalPart(email: string) {
    forall c :: c in BeforeFirst(email, '@') ==> IsSpace(c) || IsNameSeparator(c)
  }

  /**
   * No name comes out exactly when the email is empty or its local part holds nothing but
   * dots, underscores, digits and spaces; a name that comes out is never empty.
   */
  lemma NameFromEmailNone(email: string)
    ensures NameFromEmail(email).None? <==> email == "" || BlankLocalPart(email)
    ensures NameFromEmail(email).Some? ==> |NameFromEmail(email).value| > 0
  {
    var local := BeforeFirst(email, '@');
    var mapped := SeparatorsToSpaces(local);
    if BlankLocalPart(email) {
      forall c | c in mapped
        ensures IsSpace(c)
      {
        var i :| 0 <= i < |mapped| && mapped[i] == c;
        assert local[i] in local;
      }
      WordsOfBlank(mapped);
    } else {
      var c :| c in local && !IsSpace(c) && !IsNameSeparator(c);
      var i :| 0 <= i < |local| && local[i] == c;
      WordsOfNonBlank(mapped, i);
    }
    if NameFromEmail(email).Some? {
      var parts := EmailNameParts(email);
      JoinStartsWithFirst(parts, " ");
    }
  }

  /** A derived name holds no '@', dot, underscore or digit. */
  lemma NameFromEmailChars(email: string)
    requires NameFromEmail(email).Some?
    ensures forall c :: c in NameFromEmail(email).value ==> c != '@' && !IsNameSeparator(c)
  {
    var parts := EmailNameParts(email);
    forall c | c in Join(parts, " ")
      ensures c != '@' && !IsNameSeparator(c)
    {
      JoinChars(parts, " ", c);
      if c !in " " && !IsLetter(c) {
        var k :| 0 <= k < |parts| && c in parts[k];
        PartChar(email, k, c);
      }
    }
  }

  /** A non-letter of a capitalised word is a character of the local part with separators made spaces. */
  lemma PartChar(email: string, k: nat, c: char)
    requires k < |EmailNameParts(email)| && c in EmailNameParts(email)[k] && !IsLetter(c)
    ensures c != '@' && !IsNameSeparator(c)
  {
    var local := BeforeFirst(email, '@');
    var mapped := SeparatorsToSpaces(local);
    var words := Words(mapped);
    CapitalizeKeepsNonLetters(words[k], c);
    WordsChars(mapped);
    assert !IsSpace(c);
    assert c in words[k];
    assert c in mapped;
    var i :| 0 <= i < |mapped| && mapped[i] == c;
    assert local[i] in local;
  }

  /** `if name:` on a name source's result. */
  predicate Found(name: Option<string>) {
    name.Some? && name.value != ""
  }

  /**
   * `extract_name`: the email-derived name, else the name spaCy finds around the lines holding
   * the email (looked for only when there is an email), else the one it finds in the first ten
   * lines. The two spaCy results are inputs.
   */
  function ExtractName(email: string, nearEmail: Option<string>, inFirstLines: Option<string>): (name: Option<string>)
    ensures Found(NameFromEmail(email)) ==> name == NameFromEmail(email)
    ensures !Found(NameFromEmail(email)) && email != "" && Found(nearEmail) ==> name == nearEmail
    ensures !Found(NameFromEmail(email)) && (email == "" || !Found(nearEmail)) ==> name == inFirstLines
  {
    var fromEmail := NameFromEmail(email);
    if Found(fromEmail) then fromEmail
    else
      var near := if email == "" then None else nearEmail;
      if Found(near) then near else inFirstLines
  }

  /** An email whose local part has a letter always names the candidate; the spaCy results are not used. */
  lemma EmailNameWins(email: string, nearEmail: Option<string>, inFirstLines: Option<string>)
    requires exists c :: c in BeforeFirst(email, '@') && IsLetter(c)
    ensures ExtractName(email, nearEmail, inFirstLines) == NameFromEmail(email)
    ensures ExtractName(email, nearEmail, inFirstLines).Some?
  {
    var c :| c in BeforeFirst(email, '@') && IsLetter(c);
    assert !IsSpace(c) && !IsNameSeparator(c);
    NameFromEmailNone(email);
  }

  // ---------------------------------------------------------------------------------------
  // Skills

  /** The keywords `extract_skills` looks for, all lower case. */
  const SkillKeywords: seq<string> := [
    "python", "java", "javascript", "react", "node", "sql", "aws", "docker",
    "kubernetes", "machine learning", "ai", "ml", "nlp", "tensorflow", "pytorch",
    "excel", "power bi", "netsuite", "linkedin", "bert", "computer vision",
    "prompt engineering", "critical thinking", "conflict management"]

  /** The title-cased keywords that occur in the lower-cased text, in keyword order. */
  function TitledScan(keywords: seq<string>, textLower: string): (found: seq<string>)
    ensures |found| <= |keywords|
  {
    if |keywords| == 0 then []
    else
      var last := keywords[|keywords| - 1];
      TitledScan(keywords[..|keywords| - 1], textLower) + (if Contains(textLower, last) then [Title(last)] else [])
  }

  /** `extract_skills`, as a value. */
  function Skills(text: string): (skills: seq<string>)
    ensures NoDuplicates(skills)
  {
    Dedup(TitledScan(SkillKeywords, Lower(text)))
  }

  /** `extract_skills`: `skills.append(skill.title())` for each keyword in the text, then `list(set(skills))`. */
  method ExtractSkills(text: string) returns (skills: seq<string>)
    ensures skills == Skills(text)
  {
    var found := ScanKeywords(SkillKeywords, Lower(text));
    skills := Dedup(found);
  }

  method ScanKeywords(keywords: seq<string>, textLower: string) returns (found: seq<string>)
    ensures found == TitledScan(keywords, textLower)
  {
    found := [];
    for i := 0 to |keywords|
      invariant found == TitledScan(keywords[..i], textLower)
    {
      assert keywords[..i + 1][..i] == keywords[..i];
      if Contains(textLower, keywords[i]) {
        found := found + [Title(keywords[i])];
      }
    }
    assert keywords[..|keywords|] == keywords;
  }

  lemma {:induction false} TitledScanMembers(keywords: seq<string>, textLower: string)
    ensures forall x :: x in TitledScan(keywords, textLower) <==>
      exists k :: 0 <= k < |keywords| && Contains(textLower, keywords[k]) && x == Title(keywords[k])
  {
    if |keywords| > 0 {
      var init := keywords[..|keywords| - 1];
      TitledScanMembers(init, textLower);
      assert forall k :: 0 <= k < |init| ==> init[k] == keywords[k];
    }
  }

  /** The skills found are exactly the title-cased keywords occurring anywhere in the lower-cased text. */
  lemma SkillsMembers(text: string)
    ensures forall x :: x in Skills(text) <==>
      exists k :: 0 <= k < |SkillKeywords| && Contains(Lower(text), SkillKeywords[k]) && x == Title(SkillKeywords[k])
  {
    TitledScanMembers(SkillKeywords, Lower(text));
  }

  /** No word boundary is checked: a text mentioning "javascript" lists both "Java" and "Javascript". */
  lemma JavaAndJavascript(text: string)
    requires Contains(Lower(text), "javascript")
    ensures "Java" in Skills(text) && "Javascript" in Skills(text)
  {
    JavaInJavascript(Lower(text));
    KeywordFound(text, 1);
    KeywordFound(text, 2);
    TitlesOfJava();
  }

  lemma JavaInJavascript(t: string)
    requires Contains(t, "javascript")
    ensures Contains(t, "java") && SkillKeywords[1] == "java" && SkillKeywords[2] == "javascript"
  {
    var i :| 0 <= i <= |t| && OccursAt(t, "javascript", i);
    assert t[i..i + 4] == t[i..i + 10][..4];
    assert OccursAt(t, "java", i);
  }

  lemma TitlesOfJava()
    ensures Title("java") == "Java" && Title("javascript") == "Javascript"
  {
    TitleOfJava();
    TitleOfJavascript();
  }

  lemma TitleOfJava()
    ensures Title("java") == "Java"
  {
    TitleOfLowerWord("java");
  }

  lemma TitleOfJavascript()
    ensures Title("javascript") == "Javascript"
  {
    CapitalWord("javascript", "Javascript");
  }

  /** A lower-case word title-cases to the word with its first letter upper-cased. */
  lemma CapitalWord(word: string, titled: string)
    requires |word| > 0 && forall i :: 0 <= i < |word| ==> IsLower(word[i])
    requires |titled| == |word| && titled[0] == UpperChar(word[0]) && titled[1..] == word[1..]
    ensures Title(word) == titled
  {
    TitleOfLowerWord(word);
  }

  lemma KeywordFound(text: string, k: nat)
    requires k < |SkillKeywords| && Contains(Lower(text), SkillKeywords[k])
    ensures Title(SkillKeywords[k]) in Skills(text)
  {
    SkillsMembers(text);
  }

  // ---------------------------------------------------------------------------------------
  // Experience

  /** One `{"company": ..., "role": ...}` entry. */
  datatype ExperienceEntry = ExperienceEntry(company: string, role: string)

  /** The scanner's registers: the entries so far, the pending company line and the pending role line. */
  datatype ScanState = ScanState(entries: seq<ExperienceEntry>, company: Option<string>, role: Option<string>)

  /** The entry `if current_company and current_role` emits, if any. */
  function Pending(st: ScanState): seq<ExperienceEntry> {
    if st.company.Some? && st.role.Some? then [ExperienceEntry(st.company.value, st.role.value)] else []
  }

  /**
   * One line of `extract_experience`: a blank line is skipped; a company line emits the pending
   * pair, becomes the pending company and clears the pending role; otherwise a role line
   * becomes the pending role.
   */
  function ScanLine(st: ScanState, line: string, isCompany: string -> bool, isRole: string -> bool): (next: ScanState)
    ensures Strip(line) == "" ==> next == st
    ensures st.entries <= next.entries && |next.entries| <= |st.entries| + 1
    ensures |next.entries| == |st.entries| + 1 ==> st.company.Some? && st.role.Some? && next.company == Some(Strip(line))
  {
    var l := Strip(line);
    if l == "" then st
    else if isCompany(l) then ScanState(st.entries + Pending(st), Some(l), None)
    else if isRole(l) then st.(role := Some(l))
    else st
  }

  function ScanLines(lines: seq<string>, isCompany: string -> bool, isRole: string -> bool): (st: ScanState)
    ensures |st.entries| + (if st.company.Some? then 1 else 0) <= |lines|
  {
    if |lines| == 0 then ScanState([], None, None)
    else ScanLine(ScanLines(lines[..|lines| - 1], isCompany, isRole), lines[|lines| - 1], isCompany, isRole)
  }

  /** `extract_experience`, as a value: the scan of every line, then the last pending pair. */
  function ExperienceEntries(text: string, isCompany: string -> bool, isRole: string -> bool): (entries: seq<ExperienceEntry>)
    ensures |entries| <= |Split(text, '\n')|
  {
    var st := ScanLines(Split(text, '\n'), isCompany, isRole);
    st.entries + Pending(st)
  }

  /**
   * `extract_experience`, with the company-line and role-line regular expressions given as
   * predicates on the stripped line.
   */
  method ExtractExperience(text: string, isCompany: string -> bool, isRole: string -> bool)
    returns (experience: seq<ExperienceEntry>)
    ensures experience == ExperienceEntries(text, isCompany, isRole)
  {
    var lines := Split(text, '\n');
    experience := [];
    var company: Option<string> := None;
    var role: Option<string> := None;
    for i := 0 to |lines|
      invariant ScanState(experience, company, role) == ScanLines(lines[..i], isCompany, isRole)
    {
      assert lines[..i + 1][..i] == lines[..i];
      experience, company, role := ScanLineStep(experience, company, role, lines[i], isCompany, isRole);
    }
    assert lines[..|lines|] == lines;
    if company.Some? && role.Some? {
      experience := experience + [ExperienceEntry(company.value, role.value)];
    }
  }

  /** The body of the scanner's loop for one line, on its three registers. */
  method ScanLineStep(experience: seq<ExperienceEntry>, company: Option<string>, role: Option<string>, rawLine: string,
                      isCompany: string -> bool, isRole: string -> bool)
    returns (experience': seq<ExperienceEntry>, company': Option<string>, role': Option<string>)
    ensures ScanState(experience', company', role') == ScanLine(ScanState(experience, company, role), rawLine, isCompany, isRole)
  {
    experience', company', role' := experience, company, role;
    var line := Strip(rawLine);
    if line != "" {
      if isCompany(line) {
        if company.Some? && role.Some? {
          experience' := experience + [ExperienceEntry(company.value, role.value)];
        }
        company' := Some(line);
        role' := None;
      } else if isRole(line) {
        role' := Some(line);
      }
    }
  }

  /** The stripped, non-blank company lines, in document order. */
  function CompanyLines(lines: seq<string>, isCompany: string -> bool): (companies: seq<string>)
    ensures |companies| <= |lines|
  {
    if |lines| == 0 then []
    else
      var l := Strip(lines[|lines| - 1]);
      CompanyLines(lines[..|lines| - 1], isCompany) + (if l != "" && isCompany(l) then [l] else [])
  }

  function Companies(entries: seq<ExperienceEntry>): (companies: seq<string>)
    ensures |companies| == |entries| && forall i :: 0 <= i < |entries| ==> companies[i] == entries[i].company
  {
    seq(|entries|, i requires 0 <= i < |entries| => entries[i].company)
  }

  /** The companies of the entries, followed by the pending company if there is one. */
  function CompanyTrail(st: ScanState): seq<string> {
    Companies(st.entries) + (if st.company.Some? then [st.company.value] else [])
  }

  /** A proper entry: a company line, and a role line that is not a company line, both non-blank. */
  predicate ProperEntry(e: ExperienceEntry, isCompany: string -> bool, isRole: string -> bool) {
    e.company != "" && isCompany(e.company) && e.role != "" && isRole(e.role) && !isCompany(e.role)
  }

  /** The entries are proper and the pending registers hold a company line and a role line. */
  predicate RegistersProper(st: ScanState, isCompany: string -> bool, isRole: string -> bool) {
    && (forall k :: 0 <= k < |st.entries| ==> ProperEntry(st.entries[k], isCompany, isRole))
    && (st.company.Some? ==> st.company.value != "" && isCompany(st.company.value))
    && (st.role.Some? ==> st.role.value != "" && isRole(st.role.value) && !isCompany(st.role.value))
  }

  /** What holds of the registers after any prefix of the lines. */
  ghost predicate ScanInvariant(st: ScanState, lines: seq<string>, isCompany: string -> bool, isRole: string -> bool) {
    IsSubsequence(CompanyTrail(st), CompanyLines(lines, isCompany)) && RegistersProper(st, isCompany, isRole)
  }

  lemma {:induction false} ScanLinesInvariant(lines: seq<string>, isCompany: string -> bool, isRole: string -> bool)
    ensures ScanInvariant(ScanLines(lines, isCompany, isRole), lines, isCompany, isRole)
  {
    if |lines| > 0 {
      var init := lines[..|lines| - 1];
      var st := ScanLines(init, isCompany, isRole);
      ScanLinesInvariant(init, isCompany, isRole);
      assert init + [lines[|lines| - 1]] == lines;
      ScanLineKeepsTrail(st, init, lines[|lines| - 1], isCompany, isRole);
      ScanLineKeepsRegisters(st, lines[|lines| - 1], isCompany, isRole);
    }
  }

  lemma ScanLineKeepsRegisters(st: ScanState, line: string, isCompany: string -> bool, isRole: string -> bool)
    requires RegistersProper(st, isCompany, isRole)
    ensures RegistersProper(ScanLine(st, line, isCompany, isRole), isCompany, isRole)
  {
  }

  lemma ScanLineKeepsTrail(st: ScanState, lines: seq<string>, line: string, isCompany: string -> bool, isRole: string -> bool)
    requires IsSubsequence(CompanyTrail(st), CompanyLines(lines, isCompany))
    ensures IsSubsequence(CompanyTrail(ScanLine(st, line, isCompany, isRole)), CompanyLines(lines + [line], isCompany))
  {
    var l := Strip(line);
    CompanyLinesSnoc(lines, line, isCompany);
    if l != "" && isCompany(l) {
      CompanyLineKeepsTrail(st, CompanyLines(lines, isCompany), l);
    } else {
      assert CompanyLines(lines + [line], isCompany) == CompanyLines(lines, isCompany);
      assert CompanyTrail(ScanLine(st, line, isCompany, isRole)) == CompanyTrail(st);
    }
  }

  lemma CompanyLinesSnoc(lines: seq<string>, line: string, isCompany: string -> bool)
    ensures var l := Strip(line);
      CompanyLines(lines + [line], isCompany) == CompanyLines(lines, isCompany) + (if l != "" && isCompany(l) then [l] else [])
  {
    assert (lines + [line])[..|lines|] == lines;
  }

  /** A company line extends the trail by itself, dropping a pending company that had no role. */
  lemma CompanyLineKeepsTrail(st: ScanState, companyLines: seq<string>, l: string)
    requires IsSubsequence(CompanyTrail(st), companyLines)
    ensures IsSubsequence(CompanyTrail(ScanState(st.entries + Pending(st), Some(l), None)), companyLines + [l])
  {
    var next := ScanState(st.entries + Pending(st), Some(l), None);
    CompanyTrailOfCompanyLine(st, l);
    if st.company.Some? && st.role.Some? {
      assert CompanyTrail(next) == CompanyTrail(st) + [l];
      SubsequenceSnoc(CompanyTrail(st), companyLines, l, true);
    } else {
      assert CompanyTrail(next) == Companies(st.entries) + [l];
      if st.company.Some? {
        SubsequenceDropLast(Companies(st.entries), st.company.value, companyLines);
      } else {
        assert CompanyTrail(st) == Companies(st.entries);
      }
      SubsequenceSnoc(Companies(st.entries), companyLines, l, true);
    }
  }

  lemma CompanyTrailOfCompanyLine(st: ScanState, l: string)
    ensures Companies(st.entries + Pending(st)) ==
      Companies(st.entries) + (if st.company.Some? && st.role.Some? then [st.company.value] else [])
  {
  }

  /**
   * The entries are proper (company line, then a role line that is not a company line), their
   * companies appear in document order among the company lines, so there are at most as many
   * entries as company lines.
   */
  lemma ExperienceEntriesProperties(text: string, isCompany: string -> bool, isRole: string -> bool)
    ensures var entries := ExperienceEntries(text, isCompany, isRole);
      && IsSubsequence(Companies(entries), CompanyLines(Split(text, '\n'), isCompany))
      && |entries| <= |CompanyLines(Split(text, '\n'), isCompany)|
      && forall k :: 0 <= k < |entries| ==> ProperEntry(entries[k], isCompany, isRole)
  {
    var lines := Split(text, '\n');
    var st := ScanLines(lines, isCompany, isRole);
    ScanLinesInvariant(lines, isCompany, isRole);
    CompanyTrailOfCompanyLine(st, "");
    if !(st.company.Some? && st.role.Some?) {
      if st.company.Some? {
        SubsequenceDropLast(Companies(st.entries), st.company.value, CompanyLines(lines, isCompany));
      } else {
        assert CompanyTrail(st) == Companies(st.entries);
      }
      assert st.entries + Pending(st) == st.entries;
    }
    SubsequenceLength(Companies(st.entries + Pending(st)), CompanyLines(lines, isCompany));
  }

  /** Text without a company line yields no entry, whatever its role lines. */
  lemma NoCompanyNoExperience(text: string, isCompany: string -> bool, isRole: string -> bool)
    requires CompanyLines(Split(text, '\n'), isCompany) == []
    ensures ExperienceEntries(text, isCompany, isRole) == []
  {
    ExperienceEntriesProperties(text, isCompany, isRole);
  }

  // ---------------------------------------------------------------------------------------
  // Education

  const EducationKeywords: seq<string> := ["bachelor", "master", "phd", "bca", "mca", "b.tech", "m.tech"]

  /** The stripped, lower-cased form of a line, the one `extract_education` tests and title-cases. */
  function StrippedLower(line: string): string {
    Lower(Strip(line))
  }

  function TitledStrippedLower(line: string): string {
    Title(Lower(Strip(line)))
  }

  /** `extract_education`, as a value. */
  function Education(text: string): seq<string> {
    SelectLines(Split(text, '\n'), EducationKeywords, StrippedLower, TitledStrippedLower)
  }

  /** `extract_education`: each line, stripped and lower-cased, that mentions a degree keyword, title-cased. */
  method ExtractEducation(text: string) returns (education: seq<string>)
    ensures education == Education(text)
  {
    education := CollectLines(Split(text, '\n'), EducationKeywords, StrippedLower, TitledStrippedLower);
  }

  /**
   * The entries are the title-cased degree lines, in order, one per line and not deduplicated:
   * every line of the text is accounted for by at most one entry.
   */
  lemma EducationMembers(text: string)
    ensures |Education(text)| <= |Split(text, '\n')|
    ensures forall x :: x in Education(text) <==>
      exists k :: 0 <= k < |Split(text, '\n')| && MentionsAny(StrippedLower(Split(text, '\n')[k]), EducationKeywords)
                  && x == TitledStrippedLower(Split(text, '\n')[k])
  {
    SelectLinesMembers(Split(text, '\n'), EducationKeywords, StrippedLower, TitledStrippedLower);
  }

  // ---------------------------------------------------------------------------------------
  // Password reset

  /** A reset token's record: whose password it resets and until when (seconds). */
  datatype ResetToken = ResetToken(email: string, expires: int)

  datatype ResetOutcome =
    | PasswordReset     // "Password has been reset successfully"
    | InvalidToken      // 400 "Invalid or expired token"
    | TokenExpired      // 400 "Token has expired"

  /** `forgot_password` answers the same whether or not the email is registered. */
  const ForgotPasswordMessage := "If your email is registered, you will receive a password reset link"

  /** A reset token expires one hour after it was issued. */
  const ResetTokenLifetime := 3600

  /**
   * The user table (email to password hash) and `password_reset_tokens`. Tokens are only
   * issued for registered emails, so every token names a registered user.
   */
  class PasswordResets {
    var users: map<string, string>
    var tokens: map<string, ResetToken>

    ghost predicate Valid()
      reads this
    {
      forall t :: t in tokens ==> tokens[t].email in users
    }

    constructor (registered: map<string, string>)
      ensures Valid()
      ensures users == registered && tokens == map[]
    {
      users := registered;
      tokens := map[];
    }

    /**
     * `forgot_password`: for a registered email, a token (drawn at random by the service)
     * expiring an hour from `now`; for any email, the same message.
     */
    method ForgotPassword(email: string, token: string, now: int) returns (message: string)
      requires Valid()
      modifies this
      ensures Valid()
      ensures message == ForgotPasswordMessage
      ensures users == old(users)
      ensures email in users ==> tokens == old(tokens)[token := ResetToken(email, now + ResetTokenLifetime)]
      ensures email !in users ==> tokens == old(tokens)
    {
      if email in users {
        tokens := tokens[token := ResetToken(email, now + ResetTokenLifetime)];
      }
      message := ForgotPasswordMessage;
    }

    /**
     * `reset_password`: an unknown token is refused; an expired one (`now` after its expiry) is
     * deleted and refused; otherwise the user's hash becomes `newHash` (the hash of the new
     * password) and the token is deleted. A token is never usable twice.
     */
    method ResetPassword(token: string, newHash: string, now: int) returns (outcome: ResetOutcome)
      requires Valid()
      modifies this
      ensures Valid()
      ensures token !in tokens
      ensures token !in old(tokens) ==> outcome == InvalidToken && tokens == old(tokens) && users == old(users)
      ensures token in old(tokens) && now > old(tokens)[token].expires ==>
        outcome == TokenExpired && tokens == old(tokens) - {token} && users == old(users)
      ensures token in old(tokens) && now <= old(tokens)[token].expires ==>
        && outcome == PasswordReset
        && tokens == old(tokens) - {token}
        && users == old(users)[old(tokens)[token].email := newHash]
    {
      if token !in tokens {
        return InvalidToken;
      }
      var data := tokens[token];
      if now > data.expires {
        tokens := tokens - {token};
        return TokenExpired;
      }
      users := users[data.email := newHash];
      tokens := tokens - {token};
      outcome := PasswordReset;
    }
  }
}
