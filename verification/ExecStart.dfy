/** The path settings of the generated systemd unit, against the way systemd
    reads them: quoting of systemd.syntax(7), command lines of
    systemd.service(5). */
module ExecStart {
  import opened Sequences
  import opened Wrappers

  // ---- writing ----

  datatype PathError =
    | NotAbsolute
    | ControlCharacter(ch: char)
    | Directory
    | Unsafe(ch: char)
    | BindPair
    | EdgeOrBackslash
    | Comment(ch: char)

  predicate Blank(ch: char) { ch == '\n' || ch == '\r' || ch == '\t' }

  /** A C0 character the setting cannot hold. */
  predicate BadControl(ch: char, allowBlank: bool) { ch < ' ' && !(allowBlank && Blank(ch)) }

  predicate UnsafeInProgram(ch: char) { ch == '"' || ch == '\'' || ch == '\\' || ch == '\U{7F}' }

  /** The first character satisfying `p`. */
  function FindChar(s: string, p: char -> bool): (r: Option<char>)
    ensures r.None? <==> forall i :: 0 <= i < |s| ==> !p(s[i])
    ensures r.Some? ==>
              exists i :: 0 <= i < |s| && s[i] == r.value && p(s[i]) && forall j :: 0 <= j < i ==> !p(s[j])
  {
    if s == "" then None else if p(s[0]) then Some(s[0]) else FindChar(s[1..], p)
  }

  /** A `..` component between slashes or at an end. */
  predicate ParentAt(path: string, i: int) {
    && 0 <= i <= |path| - 2 && path[i] == '.' && path[i + 1] == '.'
    && (i == 0 || path[i - 1] == '/') && (i + 2 == |path| || path[i + 2] == '/')
  }

  predicate HasParent(path: string) { exists i :: 0 <= i < |path| && ParentAt(path, i) }

  predicate Absolute(path: string) { path != "" && path[0] == '/' && !HasParent(path) }

  function Escaped(ch: char, program: bool): string {
    if ch == '"' then "\\\""
    else if ch == '\\' then "\\\\"
    else if ch == '%' then "%%"
    else if ch == '$' && !program then "$$"
    else if ch == '\n' then "\\n"
    else if ch == '\r' then "\\r"
    else if ch == '\t' then "\\t"
    else [ch]
  }

  function EscapedAll(s: string, program: bool): string {
    if s == "" then "" else EscapedAll(s[..|s| - 1], program) + Escaped(s[|s| - 1], program)
  }

  /** Why a word is refused, if it is. */
  function Refusal(value: string, program: bool): Option<PathError> {
    match FindChar(value, (ch: char) => BadControl(ch, !program))
    case Some(ch) => Some(ControlCharacter(ch))
    case None =>
      if program && value != "" && value[|value| - 1] == '/' then Some(Directory)
      else if program then
        match FindChar(value, UnsafeInProgram)
        case Some(ch) => Some(Unsafe(ch))
        case None => None
      else None
  }

  function Quoted(value: string, program: bool): string { "\"" + EscapedAll(value, program) + "\"" }

  /** `systemd_quote_exec_arg`. */
  method QuoteExecArg(value: string, program: bool) returns (r: Result<string, PathError>)
    ensures r == match Refusal(value, program) case Some(e) => Err(e) case None => Ok(Quoted(value, program))
  {
    var refusal := Refusal(value, program);
    if refusal.Some? { return Err(refusal.value); }
    var escaped := EscapeLoop(value, program);
    r := Ok("\"" + escaped + "\"");
  }

  method EscapeLoop(value: string, program: bool) returns (out: string)
    ensures out == EscapedAll(value, program)
  {
    out := "";
    for i := 0 to |value|
      invariant out == EscapedAll(value[..i], program)
    {
      assert value[..i + 1][..i] == value[..i];
      out := out + Escaped(value[i], program);
    }
    assert value[..|value|] == value;
  }

  function Line(program: string, config: string): string { Quoted(program, true) + " -f " + Quoted(config, false) }

  predicate Accepted(program: string, config: string) {
    && Absolute(program) && Absolute(config) && Refusal(program, true).None? && Refusal(config, false).None?
  }

  // ---- the working directory ----

  /** Without trailing slashes and `.` components. */
  function TrimTail(s: string): (r: string)
    ensures s != "" && s[0] == '/' ==> r != "" && r[0] == '/'
  {
    if |s| > 1 && s[|s| - 1] == '/' then TrimTail(s[..|s| - 1])
    else if |s| > 1 && s[|s| - 1] == '.' && s[|s| - 2] == '/' then TrimTail(s[..|s| - 1])
    else s
  }

  /** Up to and with the last slash. */
  function UpToSlash(s: string): (r: string)
    ensures s != "" && s[0] == '/' ==> r != "" && r[0] == '/'
  {
    if s == "" || s[|s| - 1] == '/' then s else UpToSlash(s[..|s| - 1])
  }

  /** `Path::parent` of an absolute path, the root for the root itself. */
  function Parent(path: string): (r: string)
    ensures path != "" && path[0] == '/' ==> r != "" && r[0] == '/'
  {
    TrimTail(UpToSlash(TrimTail(path)))
  }

  // ---- the components of a path ----

  /** The text split at its slashes. */
  function Split(s: string): (r: seq<string>)
    ensures |r| >= 1
  {
    if s == "" then [""]
    else
      var r := Split(s[1..]);
      if s[0] == '/' then [""] + r else [[s[0]] + r[0]] + r[1..]
  }

  /** `Path::components` of an absolute path, the root aside. */
  function Components(s: string): seq<string> { Filter(Split(s), (c: string) => c != "" && c != ".") }

  lemma {:induction false} SplitConcat(u: string, v: string)
    ensures Split(u + ("/" + v)) == Split(u) + Split(v)
  {
    var q := u + ("/" + v);
    if u == "" {
      assert q == "/" + v && q[1..] == v;
    } else {
      assert q[1..] == u[1..] + ("/" + v);
      SplitConcat(u[1..], v);
    }
  }

  lemma {:induction false} SplitWhole(w: string)
    requires '/' !in w
    ensures Split(w) == [w]
  {
    if w == "" {
    } else {
      SplitWhole(w[1..]);
      assert w == [w[0]] + w[1..] && w[0] != '/';
    }
  }

  /** A last part that names something is a component, any other is none. */
  lemma {:induction false} LastComponent(u: string, w: string)
    requires '/' !in w
    ensures Components(u + ("/" + w)) == Components(u) + if w != "" && w != "." then [w] else []
  {
    var p := (c: string) => c != "" && c != ".";
    SplitConcat(u, w);
    SplitWhole(w);
    FilterAppend(Split(u), w, p);
  }

  lemma {:induction false} TrimKeepsComponents(s: string)
    requires s != "" && s[0] == '/'
    ensures Components(TrimTail(s)) == Components(s) && TrimTail(s) <= s && Trimmed(TrimTail(s))
  {
    var n := |s| - 1;
    if n > 0 && s[n] == '/' {
      assert s == s[..n] + ("/" + "");
      LastComponent(s[..n], "");
      TrimKeepsComponents(s[..n]);
    } else if n > 0 && s[n] == '.' && s[n - 1] == '/' {
      assert s == s[..n - 1] + ("/" + ".") && s[..n] == s[..n - 1] + ("/" + "");
      LastComponent(s[..n - 1], ".");
      LastComponent(s[..n - 1], "");
      TrimKeepsComponents(s[..n]);
    } else {
    }
  }

  /** The root, or a path whose last part names something. */
  predicate Trimmed(s: string) {
    |s| == 1 || (|s| > 1 && s[|s| - 1] != '/' && !(s[|s| - 1] == '.' && s[|s| - 2] == '/'))
  }

  lemma {:induction false} SlashSplits(s: string) returns (w: string)
    requires s != "" && s[0] == '/'
    ensures s == UpToSlash(s) + w && '/' !in w && UpToSlash(s)[|UpToSlash(s)| - 1] == '/'
  {
    if s[|s| - 1] == '/' {
      w := "";
    } else {
      var v := SlashSplits(s[..|s| - 1]);
      w := v + [s[|s| - 1]];
    }
  }

  /** Up to the last slash, one component is gone. */
  lemma {:induction false} UpDropsOne(s: string)
    requires s != "" && s[0] == '/' && Trimmed(s)
    ensures var (up, n) := (UpToSlash(s), |Components(s)|);
            up <= s && Components(up) == if n == 0 then [] else Components(s)[..n - 1]
  {
    var up := UpToSlash(s);
    var w := SlashSplits(s);
    var u := up[..|up| - 1];
    assert up == u + ("/" + "") && s == u + ("/" + w);
    LastComponent(u, w);
    LastComponent(u, "");
    if w == "" || w == "." {
      assert s == "/" && u == "";
      NoComponents();
    }
  }

  lemma {:induction false} NoComponents()
    ensures Components("") == []
  {
    assert Split("") == [""] && [""][..0] == [];
  }

  /** The parent is the path without its last component, cut off the text
      together with the slashes and `.` components around it; the root's is the
      root. */
  lemma {:induction false} ParentExact(path: string)
    requires path != "" && path[0] == '/'
    ensures var n := |Components(path)|;
            Components(Parent(path)) == if n == 0 then [] else Components(path)[..n - 1]
    ensures Parent(path) <= path && Trimmed(Parent(path))
  {
    var s := TrimTail(path);
    TrimKeepsComponents(path);
    UpDropsOne(s);
    TrimKeepsComponents(UpToSlash(s));
  }

  /** The White_Space characters of Unicode. */
  predicate WhiteSpace(ch: char) {
    || '\t' <= ch <= '\r' || ch == ' ' || ch == '\U{85}' || ch == '\U{A0}' || ch == '\U{1680}'
    || '\U{2000}' <= ch <= '\U{200A}' || ch == '\U{2028}' || ch == '\U{2029}' || ch == '\U{202F}'
    || ch == '\U{205F}' || ch == '\U{3000}'
  }

  predicate EdgeBlank(s: string) { s != "" && (WhiteSpace(s[0]) || WhiteSpace(s[|s| - 1])) }

  /** Why a path list entry, and why a bare path, is refused. */
  function ListRefusal(value: string): Option<PathError> {
    match FindChar(value, (ch: char) => BadControl(ch, false))
    case Some(ch) => Some(ControlCharacter(ch))
    case None => if ':' in value then Some(BindPair) else None
  }

  function RawRefusal(value: string): Option<PathError> {
    match FindChar(value, (ch: char) => BadControl(ch, false))
    case Some(ch) => Some(ControlCharacter(ch))
    case None =>
      if EdgeBlank(value) || (value != "" && value[|value| - 1] == '\\') then Some(EdgeOrBackslash)
      else match FindChar(value, (ch: char) => ch == '#' || ch == ';')
        case Some(ch) => Some(Comment(ch))
        case None => None
  }

  function ListEscaped(ch: char): string {
    if ch == '"' then "\\\"" else if ch == '\\' then "\\\\" else if ch == '%' then "%%" else [ch]
  }

  function ListEscapedAll(s: string): string {
    if s == "" then "" else ListEscapedAll(s[..|s| - 1]) + ListEscaped(s[|s| - 1])
  }

  function PathEntry(value: string): string { "\"" + ListEscapedAll(value) + "\"" }

  /** `systemd_quote_path_list`. */
  method QuotePathList(value: string) returns (r: Result<string, PathError>)
    ensures r == match ListRefusal(value) case Some(e) => Err(e) case None => Ok(PathEntry(value))
  {
    var refusal := ListRefusal(value);
    if refusal.Some? { return Err(refusal.value); }
    var out := "";
    for i := 0 to |value|
      invariant out == ListEscapedAll(value[..i])
    {
      assert value[..i + 1][..i] == value[..i];
      out := out + ListEscaped(value[i]);
    }
    assert value[..|value|] == value;
    r := Ok("\"" + out + "\"");
  }

  /** `s` with every `mark` doubled. */
  function Doubled(s: string, mark: char): string {
    if s == "" then "" else (if s[0] == mark then [mark, mark] else [s[0]]) + Doubled(s[1..], mark)
  }

  /** The three settings that name paths. */
  datatype Unit = Unit(execStart: string, readWritePaths: string, workingDirectory: string)

  predicate UnitAccepted(program: string, config: string) {
    Accepted(program, config) && ListRefusal(Parent(config)).None? && RawRefusal(Parent(config)).None?
  }

  /** `generate_systemd_unit`: a unit exactly for accepted paths. */
  method GenerateUnit(program: string, config: string) returns (r: Result<Unit, PathError>)
    ensures r.Ok? <==> UnitAccepted(program, config)
    ensures r.Ok? ==> r.value == Unit(Line(program, config), PathEntry(Parent(config)), Doubled(Parent(config), '%'))
  {
    if !Absolute(program) || !Absolute(config) { return Err(NotAbsolute); }
    var workDir := Parent(config);
    var exe := QuoteExecArg(program, true);
    if exe.Err? { return Err(exe.error); }
    var cfg := QuoteExecArg(config, false);
    if cfg.Err? { return Err(cfg.error); }
    var list := QuotePathList(workDir);
    if list.Err? { return Err(list.error); }
    var refusal := RawRefusal(workDir);
    if refusal.Some? { return Err(refusal.value); }
    r := Ok(Unit(exe.value + " -f " + cfg.value, list.value, Doubled(workDir, '%')));
  }

  // ---- what is accepted ----

  predicate NoControl(s: string) { forall i :: 0 <= i < |s| ==> s[i] >= ' ' }

  predicate Lacks(s: string, ch: char) { forall i :: 0 <= i < |s| ==> s[i] != ch }

  /** An absolute path none of whose components is `..`. */
  predicate Clear(path: string) { path != "" && path[0] == '/' && ".." !in Components(path) }

  lemma {:induction false} HeadAndTail(ch: char, s: string, t: string)
    ensures [ch] + s == t <==> t != "" && t[0] == ch && t[1..] == s
  {
    if [ch] + s == t { assert t[1..] == s; }
    if t != "" { assert t == [t[0]] + t[1..]; }
  }

  lemma {:induction false} FirstPart(s: string)
    ensures Split(s)[0] == "." <==> s != "" && s[0] == '.' && (|s| == 1 || s[1] == '/')
  {
    if s != "" && s[0] != '/' {
      assert Split(s)[0] == [s[0]] + Split(s[1..])[0];
      HeadAndTail(s[0], Split(s[1..])[0], ".");
      assert "."[1..] == "";
    }
  }

  /** A `..` behind a slash, or, unless `inside` a part, at the front. */
  predicate ParentFrom(s: string, inside: bool) { exists i :: 0 <= i < |s| && ParentAt(s, i) && (i > 0 || !inside) }

  lemma {:induction false} ParentShift(s: string, i: nat)
    requires 0 < i < |s| && (i == 1 ==> s[0] == '/')
    ensures ParentAt(s, i) <==> ParentAt(s[1..], i - 1)
  {
  }

  lemma {:induction false} ParentRest(s: string, inside: bool)
    requires s != ""
    ensures ParentFrom(s, inside) <==> (!inside && ParentAt(s, 0)) || ParentFrom(s[1..], s[0] != '/')
  {
    if ParentFrom(s, inside) {
      var i :| 0 <= i < |s| && ParentAt(s, i) && (i > 0 || !inside);
      if i > 0 {
        ParentShift(s, i);
        assert ParentAt(s[1..], i - 1);
      }
    }
    if ParentFrom(s[1..], s[0] != '/') {
      var i :| 0 <= i < |s[1..]| && ParentAt(s[1..], i) && (i > 0 || s[0] == '/');
      ParentShift(s, i + 1);
      assert ParentAt(s, i + 1);
    }
  }

  lemma {:induction false} ParentParts(s: string, inside: bool)
    ensures ParentFrom(s, inside) <==> ".." in (if inside then Split(s)[1..] else Split(s))
  {
    if s == "" {
    } else {
      var r := Split(s[1..]);
      ParentRest(s, inside);
      ParentParts(s[1..], s[0] != '/');
      FirstPart(s[1..]);
      assert r == [r[0]] + r[1..];
      if s[0] == '/' {
        assert Split(s) == [""] + r && Split(s)[1..] == r;
      } else {
        assert Split(s) == [[s[0]] + r[0]] + r[1..] && Split(s)[1..] == r[1..];
        HeadAndTail(s[0], r[0], "..");
        assert ".."[1..] == ".";
      }
    }
  }

  lemma {:induction false} AbsoluteIsClear(path: string)
    ensures Absolute(path) <==> Clear(path)
  {
    ParentParts(path, false);
    FilterElements(Split(path), (c: string) => c != "" && c != ".");
    assert HasParent(path) <==> ParentFrom(path, false);
  }

  /** A program path without control character, quote, backslash or DEL, and
      not of a directory. */
  predicate ProgramFits(path: string) {
    && NoControl(path) && (path != "" ==> path[|path| - 1] != '/')
    && Lacks(path, '"') && Lacks(path, '\'') && Lacks(path, '\\') && Lacks(path, '\U{7F}')
  }

  lemma {:induction false} ProgramExact(path: string)
    ensures Refusal(path, true).None? <==> ProgramFits(path)
  {
  }

  /** An argument without control character but for line breaks and tabs. */
  predicate ArgumentFits(path: string) {
    forall i :: 0 <= i < |path| ==> path[i] >= ' ' || path[i] == '\n' || path[i] == '\r' || path[i] == '\t'
  }

  lemma {:induction false} ArgumentExact(path: string)
    ensures Refusal(path, false).None? <==> ArgumentFits(path)
  {
  }

  /** A directory without control character, colon or mark that starts a
      comment, that neither starts nor ends in a blank nor ends in a
      backslash. */
  predicate DirectoryFits(path: string) {
    && NoControl(path) && Lacks(path, ':') && Lacks(path, '#') && Lacks(path, ';')
    && (path != "" ==>
          !WhiteSpace(path[0]) && !WhiteSpace(path[|path| - 1]) && path[|path| - 1] != '\\')
  }

  lemma {:induction false} DirectoryExact(path: string)
    ensures ListRefusal(path).None? && RawRefusal(path).None? <==> DirectoryFits(path)
  {
  }

  /** Exactly these paths get a unit: both absolute and without a `..`
      component, each fit for its setting, and so the directory of the
      configuration. */
  lemma {:induction false} AcceptedExact(program: string, config: string)
    ensures UnitAccepted(program, config) <==>
              && Clear(program) && ProgramFits(program) && Clear(config) && ArgumentFits(config)
              && DirectoryFits(Parent(config))
  {
    AbsoluteIsClear(program);
    AbsoluteIsClear(config);
    ProgramExact(program);
    ArgumentExact(config);
    DirectoryExact(Parent(config));
  }

  // ---- reading ----

  predicate Space(ch: char) { ch == ' ' || Blank(ch) }

  /** What a backslash makes of the next character: a C escape with a single
      letter, or, in settings that do not know these, the character itself. */
  function Unescape(ch: char, c: bool): Option<char> {
    if !c then Some(ch)
    else if ch == 'n' then Some('\n')
    else if ch == 'r' then Some('\r')
    else if ch == 't' then Some('\t')
    else if ch == '"' || ch == '\'' || ch == '\\' then Some(ch)
    else if ch == 's' then Some(' ')
    else None
  }

  /** The rest of a word, inside the quote `q` or outside, and what follows
      it. */
  function Word(s: string, q: Option<char>, c: bool): Option<(string, string)>
    decreases |s|
  {
    if s == "" then if q.None? then Some(("", "")) else None
    else if q.None? && Space(s[0]) then Some(("", s))
    else if q == Some(s[0]) then Word(s[1..], None, c)
    else if q.None? && (s[0] == '"' || s[0] == '\'') then Word(s[1..], Some(s[0]), c)
    else if s[0] == '\\' then
      if |s| < 2 || Unescape(s[1], c).None? then None else Prepend(Unescape(s[1], c).value, Word(s[2..], q, c))
    else Prepend(s[0], Word(s[1..], q, c))
  }

  function Prepend(ch: char, r: Option<(string, string)>): Option<(string, string)> {
    match r case Some((w, rest)) => Some(([ch] + w, rest)) case None => None
  }

  lemma {:induction false} WordShrinks(s: string, q: Option<char>, c: bool)
    requires Word(s, q, c).Some?
    ensures |Word(s, q, c).value.1| <= |s|
    ensures s != "" && (q.Some? || !Space(s[0])) ==> |Word(s, q, c).value.1| < |s|
    decreases |s|
  {
    if s == "" || (q.None? && Space(s[0])) {
    } else if q == Some(s[0]) {
      WordShrinks(s[1..], None, c);
    } else if q.None? && (s[0] == '"' || s[0] == '\'') {
      WordShrinks(s[1..], Some(s[0]), c);
    } else if s[0] == '\\' {
      WordShrinks(s[2..], q, c);
    } else {
      WordShrinks(s[1..], q, c);
    }
  }

  function Words(s: string, c: bool): Option<seq<string>>
    decreases |s|
  {
    if s == "" then Some([])
    else if Space(s[0]) then Words(s[1..], c)
    else match Word(s, None, c)
      case None => None
      case Some((w, rest)) =>
        WordShrinks(s, None, c);
        match Words(rest, c)
        case None => None
        case Some(ws) => Some([w] + ws)
  }

  /** Collapse every doubled `mark`; a single one would start an expansion. */
  function Collapse(s: string, mark: char): Option<string> {
    if s == "" then Some("")
    else if s[0] != mark then match Collapse(s[1..], mark) case Some(t) => Some([s[0]] + t) case None => None
    else if |s| >= 2 && s[1] == mark then
      match Collapse(s[2..], mark) case Some(t) => Some([mark] + t) case None => None
    else None
  }

  /** Specifiers are expanded in every word, variables in arguments only. */
  function Argument(w: string): Option<string> {
    match Collapse(w, '%') case Some(t) => Collapse(t, '$') case None => None
  }

  function Arguments(ws: seq<string>): Option<seq<string>> {
    if ws == [] then Some([])
    else match (Argument(ws[0]), Arguments(ws[1..]))
      case (Some(a), Some(rest)) => Some([a] + rest)
      case _ => None
  }

  /** `string_is_safe` of systemd: no control character, DEL included, no
      quote and no backslash. */
  predicate SafeChar(ch: char) {
    || ch >= '\U{80}' || ' ' <= ch <= '!' || '#' <= ch <= '&' || '(' <= ch <= '[' || ']' <= ch <= '~'
  }

  /** What systemd will run: an absolute path of a file, of safe characters. */
  predicate Runnable(program: string) {
    && program != "" && program[0] == '/' && program[|program| - 1] != '/'
    && forall i :: 0 <= i < |program| ==> SafeChar(program[i])
  }

  function Command(line: string): Option<seq<string>> {
    match Words(line, true)
    case None => None
    case Some(ws) =>
      if ws == [] then None
      else match (Collapse(ws[0], '%'), Arguments(ws[1..]))
        case (Some(program), Some(rest)) => if Runnable(program) then Some([program] + rest) else None
        case _ => None
  }

  // ---- round trip ----

  lemma {:induction false} CollapseDoubled(s: string, mark: char)
    ensures Collapse(Doubled(s, mark), mark) == Some(s)
  {
    if s == "" {
    } else {
      CollapseDoubled(s[1..], mark);
      var d := Doubled(s, mark);
      assert d[if s[0] == mark then 2 else 1..] == Doubled(s[1..], mark);
      assert s == [s[0]] + s[1..];
    }
  }

  /** What unquoting leaves of a character: only the marks are still doubled. */
  function Plain(ch: char, program: bool): string {
    if ch == '%' then "%%" else if ch == '$' && !program then "$$" else [ch]
  }

  /** The whole word after unquoting. */
  function PlainAll(s: string, program: bool): string { Doubled(if program then s else Doubled(s, '$'), '%') }

  lemma {:induction false} DoubledConcat(a: string, b: string, mark: char)
    ensures Doubled(a + b, mark) == Doubled(a, mark) + Doubled(b, mark)
  {
    if a == "" {
      assert a + b == b;
    } else {
      var head := if a[0] == mark then [mark, mark] else [a[0]];
      DoubledConcat(a[1..], b, mark);
      assert (a + b)[1..] == a[1..] + b && (a + b)[0] == a[0];
      assert Doubled(a + b, mark) == head + Doubled(a[1..] + b, mark);
      Regroup(head, Doubled(a[1..], mark), Doubled(b, mark));
    }
  }

  lemma {:induction false} DoubledChar(ch: char, mark: char)
    ensures Doubled([ch], mark) == if ch == mark then [mark, mark] else [ch]
  {
    assert [ch][1..] == "";
  }

  lemma {:induction false} PlainCons(s: string, program: bool)
    requires s != ""
    ensures PlainAll(s, program) == Plain(s[0], program) + PlainAll(s[1..], program)
  {
    var ch, rest := s[0], s[1..];
    assert s == [ch] + rest;
    DoubledChar(ch, '%');
    if program {
      DoubledConcat([ch], rest, '%');
    } else {
      DoubledChar(ch, '$');
      DoubledConcat([ch], rest, '$');
      DoubledConcat(Doubled([ch], '$'), Doubled(rest, '$'), '%');
      if ch == '$' {
        assert ['$', '$'] == ['$'] + ['$'];
        DoubledConcat(['$'], ['$'], '%');
      }
    }
  }

  lemma {:induction false} PlainCollapses(s: string, program: bool)
    ensures Collapse(PlainAll(s, program), '%') == Some(if program then s else Doubled(s, '$'))
  {
    CollapseDoubled(if program then s else Doubled(s, '$'), '%');
  }

  /** A written word is read back as written, less its marks. */
  lemma {:induction false} ArgumentReads(s: string)
    ensures Argument(PlainAll(s, false)) == Some(s)
  {
    PlainCollapses(s, false);
    CollapseDoubled(s, '$');
  }

  lemma {:induction false} EscapedCons(s: string, program: bool)
    requires s != ""
    ensures EscapedAll(s, program) == Escaped(s[0], program) + EscapedAll(s[1..], program)
  {
    if |s| > 1 {
      var n := |s| - 1;
      var mid := s[1..][..n - 1];
      EscapedCons(s[..n], program);
      assert s[..n][1..] == mid && s[..n][0] == s[0] && s[1..][n - 1] == s[n];
      Regroup(Escaped(s[0], program), EscapedAll(mid, program), Escaped(s[n], program));
    } else {
      assert s[1..] == "" && s[..0] == "";
    }
  }

  function Glue(front: string, r: Option<(string, string)>): Option<(string, string)> {
    match r case Some((w, rest)) => Some((front + w, rest)) case None => None
  }

  /** One written character, read inside the quotes. */
  lemma {:induction false} CharReads(ch: char, program: bool, rest: string, c: bool)
    requires c || !Blank(ch)
    ensures Word(Escaped(ch, program) + rest, Some('"'), c) == Glue(Plain(ch, program), Word(rest, Some('"'), c))
  {
    var e := Escaped(ch, program);
    if |e| == 1 {
      assert (e + rest)[1..] == rest;
    } else if e[0] == '\\' {
      assert (e + rest)[2..] == rest;
    } else {
      MarkReads(ch, rest, c);
    }
  }

  lemma {:induction false} MarkReads(ch: char, rest: string, c: bool)
    requires ch != '"' && ch != '\\'
    ensures Word([ch, ch] + rest, Some('"'), c) == Glue([ch, ch], Word(rest, Some('"'), c))
  {
    var q := Some('"');
    assert ([ch, ch] + rest)[1..] == [ch] + rest && ([ch] + rest)[1..] == rest;
    assert Word([ch] + rest, q, c) == Prepend(ch, Word(rest, q, c));
    if Word(rest, q, c).Some? {
      assert [ch] + ([ch] + Word(rest, q, c).value.0) == [ch, ch] + Word(rest, q, c).value.0;
    }
  }

  lemma {:induction false} QuotedReads(s: string, program: bool, rest: string, c: bool)
    requires c || forall i :: 0 <= i < |s| ==> !Blank(s[i])
    ensures Word(EscapedAll(s, program) + ("\"" + rest), Some('"'), c)
        == Glue(PlainAll(s, program), Word(rest, None, c))
  {
    if s == "" {
      assert EscapedAll(s, program) + ("\"" + rest) == "\"" + rest && ("\"" + rest)[1..] == rest;
      GlueEmpty(Word(rest, None, c));
    } else {
      EscapedCons(s, program);
      PlainCons(s, program);
      QuotedReads(s[1..], program, rest, c);
      var tail := EscapedAll(s[1..], program) + ("\"" + rest);
      CharReads(s[0], program, tail, c);
      Regroup(Escaped(s[0], program), EscapedAll(s[1..], program), "\"" + rest);
      GlueTwice(Plain(s[0], program), PlainAll(s[1..], program), Word(rest, None, c));
    }
  }

  lemma {:induction false} GlueEmpty(r: Option<(string, string)>)
    ensures Glue("", r) == r
  {
    if r.Some? { assert "" + r.value.0 == r.value.0; }
  }

  lemma {:induction false} GlueTwice(a: string, b: string, r: Option<(string, string)>)
    ensures Glue(a, Glue(b, r)) == Glue(a + b, r)
  {
    if r.Some? { assert a + (b + r.value.0) == a + b + r.value.0; }
  }

  /** A quoted word at the end of the line, or before a blank. */
  lemma {:induction false} WordReads(s: string, program: bool, rest: string, c: bool)
    requires rest == "" || Space(rest[0])
    requires c || forall i :: 0 <= i < |s| ==> !Blank(s[i])
    ensures Word(Quoted(s, program) + rest, None, c) == Some((PlainAll(s, program), rest))
  {
    var line := Quoted(s, program) + rest;
    assert line[1..] == EscapedAll(s, program) + ("\"" + rest);
    QuotedReads(s, program, rest, c);
    assert PlainAll(s, program) + "" == PlainAll(s, program);
  }

  lemma {:induction false} FlagReads(rest: string)
    ensures Word("-f " + rest, None, true) == Some(("-f", " " + rest))
  {
    assert ("-f " + rest)[1..] == "f " + rest && ("f " + rest)[1..] == " " + rest;
    assert Word(" " + rest, None, true) == Some(("", " " + rest));
    assert Word("f " + rest, None, true) == Some(("f" + "", " " + rest));
    assert "-" + ("f" + "") == "-f";
  }

  lemma {:induction false} OneWord(s: string, w: string, rest: string, c: bool)
    requires s != "" && !Space(s[0]) && Word(s, None, c) == Some((w, rest)) && |rest| < |s| && Words(rest, c).Some?
    ensures Words(s, c) == Some([w] + Words(rest, c).value)
  {
  }

  lemma {:induction false} LineWords(program: string, config: string)
    ensures Words(Line(program, config), true) == Some([PlainAll(program, true), "-f", PlainAll(config, false)])
  {
    var c := Quoted(config, false);
    var rest := " " + ("-f " + c);
    assert Line(program, config) == Quoted(program, true) + rest;
    WordReads(program, true, rest, true);
    assert rest[1..] == "-f " + c;
    FlagReads(c);
    assert (" " + c)[1..] == c;
    WordReads(config, false, "", true);
    assert c + "" == c;
    OneWord(c, PlainAll(config, false), "", true);
    assert [PlainAll(config, false)] + [] == [PlainAll(config, false)];
    assert Words(" " + c, true) == Words(c, true);
    OneWord("-f " + c, "-f", " " + c, true);
    assert ["-f"] + [PlainAll(config, false)] == ["-f", PlainAll(config, false)];
    assert Words(rest, true) == Words("-f " + c, true);
    OneWord(Line(program, config), PlainAll(program, true), rest, true);
    assert [PlainAll(program, true)] + ["-f", PlainAll(config, false)]
        == [PlainAll(program, true), "-f", PlainAll(config, false)];
  }

  lemma {:induction false} LineCommand(program: string, config: string)
    ensures Command(Line(program, config)) == if Runnable(program) then Some([program, "-f", config]) else None
  {
    LineWords(program, config);
    PlainCollapses(program, true);
    TwoArguments(PlainAll(config, false), config) by { ArgumentReads(config); }
    var ws := [PlainAll(program, true), "-f", PlainAll(config, false)];
    assert ws[1..] == ["-f", PlainAll(config, false)];
    assert [program] + ["-f", config] == [program, "-f", config];
  }

  /** Every accepted program and configuration path comes back as exactly the
      three words they were written as. */
  lemma {:induction false} ExecStartRoundTrip(program: string, config: string)
    requires Accepted(program, config)
    ensures Command(Line(program, config)) == Some([program, "-f", config])
  {
    LineCommand(program, config);
    forall i | 0 <= i < |program| ensures SafeChar(program[i]) {
      assert !BadControl(program[i], false);
    }
  }

  /** The character checks refuse a program exactly when its line would not
      run. */
  lemma {:induction false} ProgramChecksExact(program: string, config: string)
    requires program != "" && program[0] == '/'
    ensures Refusal(program, true).None? <==> Command(Line(program, config)) == Some([program, "-f", config])
  {
    LineCommand(program, config);
    if Refusal(program, true).None? {
      forall i | 0 <= i < |program| ensures SafeChar(program[i]) {
        assert !BadControl(program[i], false);
      }
    }
  }

  lemma {:induction false} TwoArguments(w: string, config: string)
    requires Argument(w) == Some(config)
    ensures Arguments(["-f", w]) == Some(["-f", config])
  {
    FlagArgument();
    assert ["-f", w][1..] == [w] && [w][1..] == [];
    assert Arguments([w]) == Some([config] + []);
    assert ["-f"] + ([config] + []) == ["-f", config];
  }

  lemma {:induction false} FlagArgument()
    ensures Argument("-f") == Some("-f")
  {
    PlainCons("-f", false);
    PlainCons("f", false);
    assert "-f"[1..] == "f" && "f"[1..] == "" && "-" + "f" == "-f";
    ArgumentReads("-f");
  }

  /** An accepted line has no control character, so it stays one line. */
  lemma {:induction false} OneLine(program: string, config: string)
    requires Accepted(program, config)
    ensures forall i :: 0 <= i < |Line(program, config)| ==> Line(program, config)[i] >= ' '
  {
    NoControls(program, true);
    NoControls(config, false);
  }

  lemma {:induction false} NoControls(s: string, program: bool)
    requires forall i :: 0 <= i < |s| ==> !BadControl(s[i], !program)
    ensures forall i :: 0 <= i < |EscapedAll(s, program)| ==> EscapedAll(s, program)[i] >= ' '
  {
    if s == "" {
    } else {
      NoControls(s[..|s| - 1], program);
    }
  }

  // ---- the working directory, read back ----

  /** One entry of a path list: a colon would make it a bind pair. */
  function ListEntry(w: string): Option<string> { if ':' in w then None else Collapse(w, '%') }

  /** `ReadWritePaths=` with a single entry: unquoted without C escapes. */
  function PathList(s: string): Option<string> {
    match Words(s, false)
    case Some(ws) => if |ws| == 1 then ListEntry(ws[0]) else None
    case None => None
  }

  /** `WorkingDirectory=`: the whole value, of which the parser strips the
      edges and joins a line that ends in a backslash with the next. */
  function RawPath(s: string): Option<string> {
    if EdgeBlank(s) || (s != "" && s[|s| - 1] == '\\') then None else Collapse(s, '%')
  }

  /** Without control characters both quotings are the same. */
  lemma {:induction false} ListIsQuoted(s: string)
    requires forall i :: 0 <= i < |s| ==> s[i] >= ' '
    ensures PathEntry(s) == Quoted(s, true)
  {
    ListEscapes(s);
  }

  lemma {:induction false} ListEscapes(s: string)
    requires forall i :: 0 <= i < |s| ==> s[i] >= ' '
    ensures ListEscapedAll(s) == EscapedAll(s, true)
  {
    if s == "" {
    } else {
      ListEscapes(s[..|s| - 1]);
    }
  }

  lemma {:induction false} NoColon(s: string)
    requires ':' !in s
    ensures ':' !in Doubled(s, '%')
  {
    if s == "" {
    } else {
      NoColon(s[1..]);
    }
  }

  lemma {:induction false} PathListReads(s: string)
    requires ListRefusal(s).None?
    ensures PathList(PathEntry(s)) == Some(s)
  {
    assert forall i :: 0 <= i < |s| ==> !BadControl(s[i], false);
    ListIsQuoted(s);
    var line := Quoted(s, true);
    WordReads(s, true, "", false);
    assert line + "" == line;
    OneWord(line, PlainAll(s, true), "", false);
    assert [PlainAll(s, true)] + [] == [PlainAll(s, true)];
    NoColon(s);
    CollapseDoubled(s, '%');
  }

  lemma {:induction false} DoubledEdges(s: string, mark: char)
    requires s != ""
    ensures Doubled(s, mark) != "" && Doubled(s, mark)[0] == s[0]
    ensures Doubled(s, mark)[|Doubled(s, mark)| - 1] == s[|s| - 1]
  {
    if |s| == 1 {
      assert s[1..] == "";
    } else {
      DoubledEdges(s[1..], mark);
    }
  }

  lemma {:induction false} RawPathReads(s: string)
    requires RawRefusal(s).None?
    ensures RawPath(Doubled(s, '%')) == Some(s)
  {
    CollapseDoubled(s, '%');
    if s != "" { DoubledEdges(s, '%'); }
  }

  /** Every accepted unit: each setting is read back as the paths it was
      written for, and the line runs exactly the program on the
      configuration. */
  lemma {:induction false} UnitRoundTrip(program: string, config: string)
    requires UnitAccepted(program, config)
    ensures Command(Line(program, config)) == Some([program, "-f", config])
    ensures PathList(PathEntry(Parent(config))) == Some(Parent(config))
    ensures RawPath(Doubled(Parent(config), '%')) == Some(Parent(config))
  {
    ExecStartRoundTrip(program, config);
    PathListReads(Parent(config));
    RawPathReads(Parent(config));
  }
}
