/** The mount table of the liveness agent: decoding mount points, and reducing the table to one entry a device. */
module Mounts {
  import opened Basics

  // ---------------------------------------------------------------------------------------------------------------
  // Octal escapes
  // ---------------------------------------------------------------------------------------------------------------

  predicate IsOctal(c: char) {
    '0' <= c <= '7'
  }

  function Digit(c: char): nat
    requires IsOctal(c)
  {
    c as int - '0' as int
  }

  /** `from_str_radix(_, 8)` of exactly three characters; it takes a leading plus sign for one. */
  function ParseOctal(s: string): (r: Option<nat>)
    ensures r.Some? ==> |s| == 3 && r.value < 512
  {
    if |s| != 3 || !IsOctal(s[1]) || !IsOctal(s[2]) then None
    else if s[0] == '+' then Some(Digit(s[1]) * 8 + Digit(s[2]))
    else if IsOctal(s[0]) then Some(Digit(s[0]) * 64 + Digit(s[1]) * 8 + Digit(s[2]))
    else None
  }

  function Unescape(field: string): string
    decreases |field|
  {
    if field == [] then []
    else if field[0] != '\\' then [field[0]] + Unescape(field[1..])
    else
      var k := Min(4, |field|);
      match ParseOctal(field[1..k])
      case Some(code) => [code as char] + Unescape(field[k..])
      case None => field[..k] + Unescape(field[k..])
  }

  /** What the kernel writes for a character of a mount point. */
  function EscapeChar(c: char): string {
    if c == ' ' then "\\040"
    else if c == '\t' then "\\011"
    else if c == '\n' then "\\012"
    else if c == '\\' then "\\134"
    else [c]
  }

  function Escape(path: string): string {
    if path == [] then [] else EscapeChar(path[0]) + Escape(path[1..])
  }

  lemma UnescapeStep(c: char, rest: string)
    ensures Unescape(EscapeChar(c) + rest) == [c] + Unescape(rest)
  {
    var s := EscapeChar(c) + rest;
    if |EscapeChar(c)| == 1 {
      assert s[1..] == rest;
    } else {
      assert s[1..4] == EscapeChar(c)[1..] && s[4..] == rest;
      assert ParseOctal(EscapeChar(c)[1..]) == Some(c as int);
    }
  }

  /** Every path is read back from its escaped form. */
  lemma {:induction false} UnescapeEscape(path: string)
    ensures Unescape(Escape(path)) == path
  {
    if path != [] {
      UnescapeStep(path[0], Escape(path[1..]));
      UnescapeEscape(path[1..]);
    }
  }

  lemma UnescapePlain(chars: string)
    requires chars != [] && chars[0] != '\\'
    ensures Unescape(chars) == [chars[0]] + Unescape(chars[1..])
  {
  }

  lemma UnescapeBackslash(chars: string)
    requires chars != [] && chars[0] == '\\'
    ensures var k := Min(4, |chars|);
            var step := match ParseOctal(chars[1..k]) case Some(code) => [code as char] case None => chars[..k];
            Unescape(chars) == step + Unescape(chars[k..])
  {
  }

  lemma DecodedSoFar(decoded: string, step: string, rest: string)
    ensures (decoded + step) + rest == decoded + (step + rest)
  {
  }

  method UnescapeMountPoint(field: string) returns (decoded: string)
    ensures decoded == Unescape(field)
  {
    hide Unescape, ParseOctal;
    decoded := "";
    var chars := field;
    while chars != []
      invariant decoded + Unescape(chars) == Unescape(field)
      decreases |chars|
    {
      var step;
      if chars[0] != '\\' {
        UnescapePlain(chars);
        step := [chars[0]];
        chars := chars[1..];
      } else {
        UnescapeBackslash(chars);
        var k := Min(4, |chars|);
        var rest := chars[1..k];
        assert chars[..k] == "\\" + rest;
        step := match ParseOctal(rest) case Some(code) => [code as char] case None => "\\" + rest;
        chars := chars[k..];
      }
      DecodedSoFar(decoded, step, Unescape(chars));
      decoded := decoded + step;
    }
    UnescapeNothing();
    assert decoded + [] == decoded;
  }

  lemma UnescapeNothing()
    ensures Unescape([]) == []
  {
  }

  // ---------------------------------------------------------------------------------------------------------------
  // Fields
  // ---------------------------------------------------------------------------------------------------------------

  /** The Unicode property White_Space, by which `split_whitespace` splits. */
  predicate IsWhitespace(c: char) {
    var n := c as int;
    || 9 <= n <= 13 || n == 32 || n == 0x85 || n == 0xA0 || n == 0x1680 || 0x2000 <= n <= 0x200A
    || n == 0x2028 || n == 0x2029 || n == 0x202F || n == 0x205F || n == 0x3000
  }

  predicate NoWhitespace(s: string) {
    forall i | 0 <= i < |s| :: !IsWhitespace(s[i])
  }

  function WordLength(s: string): (k: nat)
    ensures k <= |s| && NoWhitespace(s[..k])
    ensures k < |s| ==> IsWhitespace(s[k])
  {
    if s == [] || IsWhitespace(s[0]) then 0
    else
      var k := 1 + WordLength(s[1..]);
      assert s[..k] == [s[0]] + s[1..][..k - 1];
      k
  }

  function Words(s: string): (r: seq<string>)
    ensures forall i | 0 <= i < |r| :: NoWhitespace(r[i]) && r[i] != []
    decreases |s|
  {
    if s == [] then []
    else if IsWhitespace(s[0]) then Words(s[1..])
    else
      var k := WordLength(s);
      [s[..k]] + Words(s[k..])
  }

  function Split(s: string, separator: char): seq<string> {
    if s == [] then [[]]
    else if s[0] == separator then [[]] + Split(s[1..], separator)
    else
      var rest := Split(s[1..], separator);
      if rest == [] then [[s[0]]] else [[s[0]] + rest[0]] + rest[1..]
  }

  predicate IsRuntimeMount(path: string) {
    exists prefix | prefix in {"/run", "/dev", "/nix"} :: path == prefix || prefix + "/" <= path
  }

  /** The mount point that a line reports, unless the line is truncated, or a 9p, read-only or runtime mount. */
  function MountPoint(line: string): Option<string> {
    var fields := Words(line);
    if |fields| < 4 then None
    else if "9p" <= fields[2] then None
    else if "ro" in Split(fields[3], ',') then None
    else if IsRuntimeMount(Unescape(fields[1])) then None
    else Some(Unescape(fields[1]))
  }

  // ---------------------------------------------------------------------------------------------------------------
  // Which mount points survive the table
  // ---------------------------------------------------------------------------------------------------------------

  function KernelLine(device: string, path: string, fstype: string, options: string): string {
    device + " " + Escape(path) + " " + fstype + " " + options + " 0 0"
  }

  lemma {:induction false} WordLengthOf(word: string, space: char, rest: string)
    requires NoWhitespace(word) && IsWhitespace(space)
    ensures WordLength(word + [space] + rest) == |word|
  {
    if word != [] {
      assert (word + [space] + rest)[1..] == word[1..] + [space] + rest;
      WordLengthOf(word[1..], space, rest);
    }
  }

  lemma FirstWordBefore(word: string, space: char, rest: string)
    requires NoWhitespace(word) && word != [] && IsWhitespace(space)
    ensures Words(word + [space] + rest) == [word] + Words(rest)
  {
    var s := word + [space] + rest;
    WordLengthOf(word, space, rest);
    hide WordLength, NoWhitespace;
    assert s[..|word|] == word && s[|word|..] == [space] + rest;
    assert ([space] + rest)[1..] == rest;
    assert Words([space] + rest) == Words(rest);
  }

  lemma FirstWord(word: string, rest: string)
    requires NoWhitespace(word) && word != []
    ensures Words(word + " " + rest) == [word] + Words(rest)
  {
    FirstWordBefore(word, ' ', rest);
    hide Words;
    assert [' '] == " ";
  }

  /** The kernel escapes every character that is white space, unless it is one of those it does not know of. */
  predicate Separates(c: char) {
    IsWhitespace(c) && c !in {' ', '\t', '\n'}
  }

  /** All the white space in a path is escaped. */
  predicate Escaped(path: string) {
    forall i | 0 <= i < |path| :: !Separates(path[i])
  }

  lemma EscapeCharNoWhitespace(c: char)
    ensures NoWhitespace(EscapeChar(c)) <==> !Separates(c)
    ensures Separates(c) ==> EscapeChar(c) == [c]
  {
    assert EscapeChar(c)[0] == '\\' || EscapeChar(c) == [c];
  }

  lemma {:induction false} EscapeNoWhitespace(path: string)
    requires Escaped(path)
    ensures NoWhitespace(Escape(path))
  {
    if path != [] {
      EscapeNoWhitespace(path[1..]);
      EscapeCharNoWhitespace(path[0]);
      NoWhitespaceConcat(EscapeChar(path[0]), Escape(path[1..]));
    }
  }

  lemma NoWhitespaceConcat(a: string, b: string)
    requires NoWhitespace(a) && NoWhitespace(b)
    ensures NoWhitespace(a + b)
  {
  }

  lemma {:induction false} EscapeAppend(a: string, b: string)
    ensures Escape(a + b) == Escape(a) + Escape(b)
  {
    if a == [] {
      assert a + b == b;
    } else {
      assert (a + b)[1..] == a[1..] + b;
      EscapeAppend(a[1..], b);
      hide EscapeChar;
    }
  }

  /** The first white space of a path that the kernel leaves as it is. */
  function FirstSeparator(path: string): (i: nat)
    ensures i <= |path| && Escaped(path[..i])
    ensures i < |path| ==> Separates(path[i])
    ensures i == |path| <==> Escaped(path)
  {
    if path == [] || Separates(path[0]) then 0
    else
      var i := 1 + FirstSeparator(path[1..]);
      assert path[..i] == [path[0]] + path[1..][..i - 1];
      i
  }

  function Rest(fstype: string, options: string): string {
    fstype + " " + (options + " " + "0 0")
  }

  lemma KernelLineFields(device: string, path: string, fstype: string, options: string)
    ensures KernelLine(device, path, fstype, options)
         == device + " " + (Escape(path) + " " + Rest(fstype, options))
  {
    hide Escape;
    assert " 0 0" == " " + "0 0";
  }

  /** What the reader makes of the second field. */
  function ReadMountPoint(line: string): Option<string> {
    var fields := Words(line);
    if |fields| < 4 then None else Some(Unescape(fields[1]))
  }

  lemma {:induction false} WordLengthBefore(a: string, rest: string)
    requires WordLength(a) < |a|
    ensures WordLength(a + rest) == WordLength(a)
  {
    if !IsWhitespace(a[0]) {
      assert (a + rest)[1..] == a[1..] + rest;
      WordLengthBefore(a[1..], rest);
    }
  }

  lemma WordsStep(s: string)
    requires s != [] && !IsWhitespace(s[0])
    ensures Words(s) == [s[..WordLength(s)]] + Words(s[WordLength(s)..])
    ensures WordLength(s) > 0
  {
  }

  lemma CutWord(a: string, space: char, b: string, k: nat)
    requires k <= |a|
    ensures (a + [space] + b)[..k] == a[..k] && (a + [space] + b)[k..] == a[k..] + [space] + b
  {
  }

  lemma NoWords()
    ensures Words([]) == []
  {
  }

  lemma WordsSkip(s: string)
    requires s != [] && IsWhitespace(s[0])
    ensures Words(s) == Words(s[1..])
  {
  }

  /** White space in between separates the words before it from those after it. */
  lemma {:induction false} WordsAppend(a: string, space: char, b: string)
    requires IsWhitespace(space)
    ensures Words(a + [space] + b) == Words(a) + Words(b)
    decreases |a|
  {
    hide Words, IsWhitespace, NoWhitespace;
    var s := a + [space] + b;
    NoWords();
    if a == [] {
      WordsSkip(s);
      assert s[1..] == b;
    } else if IsWhitespace(a[0]) {
      WordsSkip(a);
      WordsSkip(s);
      CutWord(a, space, b, 1);
      WordsAppend(a[1..], space, b);
    } else if WordLength(a) == |a| {
      hide WordLength;
      WordsStep(a);
      assert a[..|a|] == a && a[|a|..] == [];
      FirstWordBefore(a, space, b);
    } else {
      hide WordLength;
      var k := WordLength(a);
      WordsStep(a);
      WordsStep(s);
      WordLengthBefore(a, [space] + b);
      assert s == a + ([space] + b);
      CutWord(a, space, b, k);
      WordsAppend(a[k..], space, b);
    }
  }

  lemma NonEmptyEscape(path: string)
    requires path != []
    ensures Escape(path) != []
  {
  }

  lemma EscapedFields(device: string, path: string, fstype: string, options: string)
    requires device != [] && NoWhitespace(device) && path != [] && Escaped(path)
    requires fstype != [] && NoWhitespace(fstype) && options != [] && NoWhitespace(options)
    ensures var fields := Words(KernelLine(device, path, fstype, options));
            |fields| >= 4 && fields[1] == Escape(path) && fields[2] == fstype && fields[3] == options
  {
    var escaped, tail := Escape(path), options + " " + "0 0";
    NonEmptyEscape(path);
    EscapeNoWhitespace(path);
    KernelLineFields(device, path, fstype, options);
    hide Words, Escape, NoWhitespace, KernelLine;
    FirstWord(device, escaped + " " + (fstype + " " + tail));
    FirstWord(escaped, fstype + " " + tail);
    FirstWord(fstype, tail);
    FirstWord(options, "0 0");
  }

  /** The escaped form of a path, cut at the first white space that is not escaped. */
  lemma EscapeCut(path: string, i: nat)
    requires i < |path| && Separates(path[i])
    ensures Escape(path) == Escape(path[..i]) + [path[i]] + Escape(path[i + 1..])
  {
    var rest := path[i..];
    assert path == path[..i] + rest && rest[0] == path[i] && rest[1..] == path[i + 1..];
    EscapeAppend(path[..i], rest);
    EscapeCharNoWhitespace(path[i]);
    assert Escape(rest) == [path[i]] + Escape(path[i + 1..]);
    hide Escape, EscapeChar;
  }

  lemma CutLine(front: string, space: char, back: string, tail: string)
    ensures (front + [space] + back) + " " + tail == front + [space] + (back + " " + tail)
  {
  }

  /** The second field of the line ends at the first white space that is not escaped. */
  lemma CutField(device: string, path: string, fstype: string, options: string, i: nat)
    requires device != [] && NoWhitespace(device)
    requires i == FirstSeparator(path) && 0 < i < |path|
    ensures Words(KernelLine(device, path, fstype, options))
         == [device] + ([Escape(path[..i])] + Words(Escape(path[i + 1..]) + " " + Rest(fstype, options)))
  {
    hide Words, Escape, NoWhitespace, KernelLine, IsWhitespace, FirstSeparator, Rest, Escaped;
    var front, back, tail := Escape(path[..i]), Escape(path[i + 1..]), Rest(fstype, options);
    EscapeCut(path, i);
    NonEmptyEscape(path[..i]);
    EscapeNoWhitespace(path[..i]);
    KernelLineFields(device, path, fstype, options);
    FirstWord(device, Escape(path) + " " + tail);
    CutLine(front, path[i], back, tail);
    FirstWordBefore(front, path[i], back + " " + tail);
  }

  /** A mount point is absolute. The reader gets it back from its line of the table exactly when the kernel escapes all the
      white space in it: the kernel escapes spaces, tabs and newlines, and the reader splits at every Unicode white space.
      In any case it gets the path up to the first white space that is not escaped. */
  lemma MountPointSurvives(device: string, path: string, fstype: string, options: string)
    requires device != [] && NoWhitespace(device) && path != [] && path[0] == '/'
    requires fstype != [] && NoWhitespace(fstype) && options != [] && NoWhitespace(options)
    ensures ReadMountPoint(KernelLine(device, path, fstype, options)) == Some(path[..FirstSeparator(path)])
    ensures ReadMountPoint(KernelLine(device, path, fstype, options)) == Some(path) <==> Escaped(path)
  {
    var i := FirstSeparator(path);
    assert !Separates(path[0]) && i > 0;
    hide Words, Escape, NoWhitespace, KernelLine, Separates, Unescape;
    UnescapeEscape(path[..i]);
    if Escaped(path) {
      EscapedFields(device, path, fstype, options);
      assert path[..i] == path;
    } else {
      CutField(device, path, fstype, options, i);
      ManyFields(Escape(path[i + 1..]), fstype, options);
    }
  }

  lemma ManyFields(more: string, fstype: string, options: string)
    requires fstype != [] && NoWhitespace(fstype) && options != [] && NoWhitespace(options)
    ensures |Words(more + " " + Rest(fstype, options))| >= 2
  {
    hide Words, NoWhitespace, Rest;
    WordsAppend(more, ' ', Rest(fstype, options));
    assert [' '] == " ";
    RestFields(fstype, options);
  }

  // ---------------------------------------------------------------------------------------------------------------
  // Which lines are dropped
  // ---------------------------------------------------------------------------------------------------------------

  /** The part of a path before the next slash. */
  function Component(path: string): string {
    if path == [] || path[0] == '/' then [] else [path[0]] + Component(path[1..])
  }

  lemma {:induction false} ComponentIs(path: string, name: string)
    requires '/' !in name
    ensures Component(path) == name <==> path == name || name + "/" <= path
  {
    if name == [] {
      assert "" + "/" == "/";
      assert path != [] && path[0] == '/' ==> path[..1] == "/";
    } else if path != [] && path[0] == name[0] {
      ComponentIs(path[1..], name[1..]);
      assert path == [path[0]] + path[1..] && name == [name[0]] + name[1..];
      assert name + "/" == [name[0]] + (name[1..] + "/");
      assert Component(path) == [path[0]] + Component(path[1..]);
    }
  }

  lemma UnderSlash(path: string, name: string)
    requires path != [] && path[0] == '/' && '/' !in name
    ensures (path == "/" + name || ("/" + name) + "/" <= path) <==> Component(path[1..]) == name
  {
    ComponentIs(path[1..], name);
    assert path == "/" + path[1..];
    assert ("/" + name) + "/" == "/" + (name + "/");
    hide Component;
  }

  /** The runtime mounts are those whose first directory is `run`, `dev` or `nix`. */
  lemma RuntimeMounts(path: string)
    requires path != [] && path[0] == '/'
    ensures IsRuntimeMount(path) <==> Component(path[1..]) in {"run", "dev", "nix"}
  {
    UnderSlash(path, "run");
    UnderSlash(path, "dev");
    UnderSlash(path, "nix");
    assert "/" + "run" == "/run" && "/" + "dev" == "/dev" && "/" + "nix" == "/nix";
    hide Component;
  }

  /** A word stands in a list between separators, or at its ends. */
  ghost predicate StandsAt(s: string, separator: char, word: string, i: nat) {
    && i + |word| <= |s| && s[i..i + |word|] == word
    && (i > 0 ==> s[i - 1] == separator)
    && (i + |word| < |s| ==> s[i + |word|] == separator)
  }

  /** The first part of a split, and the others. */
  lemma {:induction false} SplitFirst(s: string, separator: char, word: string)
    requires separator !in word
    ensures Split(s, separator) != []
    ensures Split(s, separator)[0] == word <==> StandsAt(s, separator, word, 0)
  {
    if s != [] && s[0] != separator {
      SplitFirst(s[1..], separator, if word == [] then [] else word[1..]);
      if word != [] {
        assert StandsAt(s, separator, word, 0) <==> s[0] == word[0] && StandsAt(s[1..], separator, word[1..], 0) by {
          assert s == [s[0]] + s[1..] && word == [word[0]] + word[1..];
          assert |word| <= |s| ==> s[0..|word|] == [s[0]] + s[1..][0..|word| - 1];
        }
        assert [s[0]] + Split(s[1..], separator)[0] == word <==> s[0] == word[0] && Split(s[1..], separator)[0] == word[1..];
      }
    }
  }

  lemma NextStands(s: string, separator: char, word: string, i: nat)
    requires s != []
    ensures StandsAt(s, separator, word, i + 1) <==>
              StandsAt(s[1..], separator, word, i) && (i == 0 ==> s[0] == separator)
  {
    assert i + 1 + |word| <= |s| ==> s[1..][i..i + |word|] == s[i + 1..i + 1 + |word|];
  }

  /** Where a word stands behind the first character of a list. */
  lemma LaterWords(s: string, separator: char, word: string)
    requires s != []
    ensures (exists i: nat :: i > 0 && StandsAt(s, separator, word, i)) <==>
              exists i: nat :: StandsAt(s[1..], separator, word, i) && (i == 0 ==> s[0] == separator)
  {
    hide StandsAt;
    if i: nat :| i > 0 && StandsAt(s, separator, word, i) {
      NextStands(s, separator, word, i - 1);
    }
    if i: nat :| StandsAt(s[1..], separator, word, i) && (i == 0 ==> s[0] == separator) {
      NextStands(s, separator, word, i);
    }
  }

  lemma SplitStep(s: string, separator: char)
    requires s != [] && Split(s[1..], separator) != []
    ensures Split(s, separator) != []
    ensures s[0] == separator ==> Split(s, separator)[1..] == Split(s[1..], separator)
    ensures s[0] != separator ==> Split(s, separator)[1..] == Split(s[1..], separator)[1..]
  {
  }

  lemma {:induction false} SplitLater(s: string, separator: char, word: string)
    requires separator !in word
    ensures Split(s, separator) != []
    ensures word in Split(s, separator)[1..] <==> exists i: nat :: i > 0 && StandsAt(s, separator, word, i)
  {
    if s != [] {
      var rest := Split(s[1..], separator);
      SplitLater(s[1..], separator, word);
      SplitFirst(s[1..], separator, word);
      SplitStep(s, separator);
      LaterWords(s, separator, word);
      hide Split, StandsAt;
      assert rest == [rest[0]] + rest[1..];
    }
  }

  /** The list that is split has a word just where the word stands between separators. */
  lemma SplitHas(s: string, separator: char, word: string)
    requires separator !in word
    ensures word in Split(s, separator) <==> exists i: nat :: StandsAt(s, separator, word, i)
  {
    hide StandsAt;
    SplitFirst(s, separator, word);
    SplitLater(s, separator, word);
    var parts := Split(s, separator);
    hide Split;
    assert parts == [parts[0]] + parts[1..];
  }

  /** A line reports its mount point if and only if all white space in it is escaped, the file system is no 9p, `ro` is not
      among the options, and the first directory is not one of the runtime's. */
  lemma MountPointReported(device: string, path: string, fstype: string, options: string)
    requires device != [] && NoWhitespace(device) && path != [] && path[0] == '/'
    requires fstype != [] && NoWhitespace(fstype) && options != [] && NoWhitespace(options)
    ensures MountPoint(KernelLine(device, path, fstype, options)) == Some(path) <==>
              && Escaped(path) && !("9p" <= fstype)
              && !(exists i: nat :: StandsAt(options, ',', "ro", i))
              && Component(path[1..]) !in {"run", "dev", "nix"}
  {
    hide Words, Unescape, Split, IsRuntimeMount, KernelLine, Escaped, FirstSeparator, Escape, NoWhitespace, StandsAt,
      Component;
    MountPointSurvives(device, path, fstype, options);
    RuntimeMounts(path);
    SplitHas(options, ',', "ro");
    if Escaped(path) {
      EscapedFields(device, path, fstype, options);
      UnescapeEscape(path);
    }
  }

  /** And it is then an entry of the report, of its own on a device of its own, exactly if the file system has blocks. */
  lemma LineQualifies(os: System, device: string, path: string, fstype: string, options: string)
    requires device != [] && NoWhitespace(device) && path != [] && path[0] == '/' && Escaped(path)
    requires fstype != [] && NoWhitespace(fstype) && options != [] && NoWhitespace(options)
    ensures Qualifies(os, KernelLine(device, path, fstype, options)) <==>
              && !("9p" <= fstype)
              && !(exists i: nat :: StandsAt(options, ',', "ro", i))
              && Component(path[1..]) !in {"run", "dev", "nix"}
              && os.usageOf(path).Some? && os.usageOf(path).value.total > 0
  {
    hide Words, Unescape, Split, IsRuntimeMount, KernelLine, Escaped, Escape, NoWhitespace, StandsAt, Component;
    RuntimeMounts(path);
    SplitHas(options, ',', "ro");
    EscapedFields(device, path, fstype, options);
    UnescapeEscape(path);
  }

  lemma RestFields(fstype: string, options: string)
    requires fstype != [] && NoWhitespace(fstype) && options != [] && NoWhitespace(options)
    ensures Words(Rest(fstype, options)) == [fstype] + ([options] + Words("0 0"))
  {
    hide Words, NoWhitespace;
    FirstWord(fstype, options + " " + "0 0");
    FirstWord(options, "0 0");
  }

  const NO_BREAK_SPACE: char := 0xA0 as char

  lemma NoBreakSpaceCuts()
    ensures FirstSeparator(['/', NO_BREAK_SPACE, 'a']) == 1
    ensures ['/', NO_BREAK_SPACE, 'a'][..1] == ['/'] && ['/', NO_BREAK_SPACE, 'a'][2..] == ['a']
  {
    var path := ['/', NO_BREAK_SPACE, 'a'];
    assert Separates(path[1]) && !Separates(path[0]);
    assert path[1..][0] == NO_BREAK_SPACE;
  }

  /** With one such white space, the two parts of the path are two fields. */
  lemma CutFields(device: string, path: string, fstype: string, options: string, i: nat)
    requires device != [] && NoWhitespace(device)
    requires fstype != [] && NoWhitespace(fstype) && options != [] && NoWhitespace(options)
    requires i == FirstSeparator(path) && 0 < i < |path| - 1 && Escaped(path[i + 1..])
    ensures Words(KernelLine(device, path, fstype, options))
         == [device] + ([Escape(path[..i])] + ([Escape(path[i + 1..])] + ([fstype] + ([options] + Words("0 0")))))
  {
    hide Words, KernelLine, NoWhitespace, FirstSeparator, Escape, Rest, Escaped;
    CutField(device, path, fstype, options, i);
    NonEmptyEscape(path[i + 1..]);
    EscapeNoWhitespace(path[i + 1..]);
    FirstWord(Escape(path[i + 1..]), Rest(fstype, options));
    RestFields(fstype, options);
  }

  lemma TakenForRoot(line: string)
    requires |Words(line)| >= 4 && Words(line)[1] == "/" && Words(line)[2] == "a" && Words(line)[3] == "tmpfs"
    ensures MountPoint(line) == Some("/")
  {
    SplitNowhere("tmpfs", ',');
    assert Unescape("/") == "/";
    hide Words, Split, Unescape;
  }

  /** A path with a no-break space is lost: its line is taken for one of the root. */
  lemma NoBreakSpaceIsLost()
    ensures MountPoint(KernelLine("tmpfs", ['/', NO_BREAK_SPACE, 'a'], "tmpfs", "rw")) == Some("/")
  {
    var path, fs, rw := ['/', NO_BREAK_SPACE, 'a'], "tmpfs", "rw";
    assert NoWhitespace(fs) && NoWhitespace(rw) && Escaped(['a']);
    hide Words, KernelLine, NoWhitespace, FirstSeparator, Escape, Escaped, MountPoint;
    NoBreakSpaceCuts();
    EscapeOne('/');
    EscapeOne('a');
    CutFields(fs, path, fs, rw, 1);
    TakenForRoot(KernelLine(fs, path, fs, rw));
  }

  lemma EscapeOne(c: char)
    ensures Escape([c]) == EscapeChar(c)
  {
    assert [c][1..] == [];
    assert Escape([]) == [];
    hide EscapeChar;
  }

  lemma {:induction false} SplitNowhere(s: string, separator: char)
    requires separator !in s
    ensures Split(s, separator) == [s]
  {
    if s != [] {
      SplitNowhere(s[1..], separator);
      assert [s[0]] + s[1..] == s;
    }
  }

  // ---------------------------------------------------------------------------------------------------------------
  // One entry a device
  // ---------------------------------------------------------------------------------------------------------------

  datatype Usage = Usage(used: nat, total: nat)

  /** The operating system: usage and device of a mount point, label of a device, while the table is read. */
  datatype System = System(
    usageOf: string -> Option<Usage>, deviceOf: string -> nat, labelOf: nat -> Option<string>)

  datatype FileSystemUsage = FileSystemUsage(mountPoint: string, deviceLabel: Option<string>, usage: Usage)

  predicate HasBlocks(os: System, path: string) {
    os.usageOf(path).Some? && os.usageOf(path).value.total > 0
  }

  /** A line that could be reported. */
  predicate Qualifies(os: System, line: string) {
    MountPoint(line).Some? && HasBlocks(os, MountPoint(line).value)
  }

  function DeviceOf(os: System, line: string): nat
    requires MountPoint(line).Some?
  {
    os.deviceOf(MountPoint(line).value)
  }

  /** A line is reported when it qualifies and no earlier qualifying line is on the same device. */
  predicate Reported(os: System, lines: seq<string>, i: nat)
    requires i < |lines|
  {
    && Qualifies(os, lines[i])
    && forall j | 0 <= j < i :: Qualifies(os, lines[j]) ==> DeviceOf(os, lines[j]) != DeviceOf(os, lines[i])
  }

  function Entry(os: System, line: string): FileSystemUsage
    requires Qualifies(os, line)
  {
    var path := MountPoint(line).value;
    FileSystemUsage(path, os.labelOf(os.deviceOf(path)), os.usageOf(path).value)
  }

  function Report(os: System, lines: seq<string>): seq<FileSystemUsage> {
    if lines == [] then []
    else
      var n := |lines| - 1;
      Report(os, lines[..n]) + if Reported(os, lines, n) then [Entry(os, lines[n])] else []
  }

  lemma ReportSnoc(os: System, lines: seq<string>, i: nat)
    requires i < |lines|
    ensures Report(os, lines[..i + 1])
         == Report(os, lines[..i]) + if Reported(os, lines, i) then [Entry(os, lines[i])] else []
  {
    var prefix := lines[..i + 1];
    assert prefix[..i] == lines[..i];
    assert Reported(os, prefix, i) == Reported(os, lines, i);
  }

  ghost predicate SeenUpTo(lines: seq<string>, i: nat, seen: seq<string>)
    requires i <= |lines|
  {
    forall path :: path in seen <==> exists j :: 0 <= j < i && MountPoint(lines[j]) == Some(path)
  }

  ghost predicate DevicesUpTo(os: System, lines: seq<string>, i: nat, devices: seq<nat>)
    requires i <= |lines|
  {
    forall d :: d in devices <==> exists j :: 0 <= j < i && Qualifies(os, lines[j]) && DeviceOf(os, lines[j]) == d
  }

  /** The index of mount points only saves system calls: a mount point that was seen before has the same usage and the
      same device, so the index of devices would drop it as well. */
  lemma SeenIsRedundant(os: System, lines: seq<string>, i: nat, seen: seq<string>)
    requires i < |lines| && SeenUpTo(lines, i, seen)
    requires MountPoint(lines[i]).Some? && MountPoint(lines[i]).value in seen
    ensures !Reported(os, lines, i)
    ensures Qualifies(os, lines[i]) ==>
              exists j :: 0 <= j < i && Qualifies(os, lines[j]) && DeviceOf(os, lines[j]) == DeviceOf(os, lines[i])
  {
    var j :| 0 <= j < i && MountPoint(lines[j]) == Some(MountPoint(lines[i]).value);
    assert Qualifies(os, lines[j]) == Qualifies(os, lines[i]);
  }

  method Disks(os: System, lines: seq<string>) returns (disks: seq<FileSystemUsage>)
    ensures disks == Report(os, lines)
  {
    var seen: seq<string> := [];
    var devices: seq<nat> := [];
    disks := [];
    for i := 0 to |lines|
      invariant disks == Report(os, lines[..i])
      invariant SeenUpTo(lines, i, seen)
      invariant DevicesUpTo(os, lines, i, devices)
    {
      ReportSnoc(os, lines, i);
      var fields := Words(lines[i]);
      if |fields| < 4 {
        continue;
      }
      var fstype, options := fields[2], fields[3];
      if "9p" <= fstype {
        continue;
      }
      if "ro" in Split(options, ',') {
        continue;
      }
      var path := UnescapeMountPoint(fields[1]);
      if IsRuntimeMount(path) {
        continue;
      }
      assert MountPoint(lines[i]) == Some(path);
      if path in seen {
        SeenIsRedundant(os, lines, i, seen);
        continue;
      }
      seen := seen + [path];
      var usage := os.usageOf(path);
      if usage == None || usage.value.total == 0 {
        continue;
      }
      var device := os.deviceOf(path);
      if device in devices {
        continue;
      }
      devices := devices + [device];
      disks := disks + [FileSystemUsage(path, os.labelOf(device), usage.value)];
    }
    assert lines[..|lines|] == lines;
  }

  function DeviceOfEntry(os: System, e: FileSystemUsage): nat {
    os.deviceOf(e.mountPoint)
  }

  /** Every reported entry is the first qualifying line of its device. */
  lemma {:induction false} ReportedFirst(os: System, lines: seq<string>, k: nat) returns (i: nat)
    requires k < |Report(os, lines)|
    ensures i < |lines| && Reported(os, lines, i) && Report(os, lines)[k] == Entry(os, lines[i])
    ensures |Report(os, lines[..i])| == k
  {
    hide Qualifies, Entry;
    var n := |lines| - 1;
    if k < |Report(os, lines[..n])| {
      i := ReportedFirst(os, lines[..n], k);
      assert lines[..n][..i] == lines[..i];
    } else {
      i := n;
    }
  }

  /** Each device is reported once, and every device with a qualifying line is reported. */
  lemma OneEntryPerDevice(os: System, lines: seq<string>)
    ensures forall k, l | 0 <= k < l < |Report(os, lines)| ::
              DeviceOfEntry(os, Report(os, lines)[k]) != DeviceOfEntry(os, Report(os, lines)[l])
    ensures forall i | 0 <= i < |lines| && Qualifies(os, lines[i]) ::
              exists k :: 0 <= k < |Report(os, lines)|
                          && DeviceOfEntry(os, Report(os, lines)[k]) == DeviceOf(os, lines[i])
  {
    var report := Report(os, lines);
    forall k, l | 0 <= k < l < |report| ensures DeviceOfEntry(os, report[k]) != DeviceOfEntry(os, report[l]) {
      var i := ReportedFirst(os, lines, k);
      var j := ReportedFirst(os, lines, l);
      if j <= i {
        ReportGrows(os, lines, j, i);
      }
    }
    forall i | 0 <= i < |lines| && Qualifies(os, lines[i])
      ensures exists k :: 0 <= k < |report| && DeviceOfEntry(os, report[k]) == DeviceOf(os, lines[i])
    {
      var k := DeviceReported(os, lines, i);
    }
  }

  lemma {:induction false} ReportGrows(os: System, lines: seq<string>, i: nat, j: nat)
    requires i <= j <= |lines|
    ensures Report(os, lines[..i]) <= Report(os, lines[..j])
    decreases j
  {
    hide Report, Reported;
    if i < j {
      ReportGrows(os, lines, i, j - 1);
      ReportSnoc(os, lines, j - 1);
    }
  }

  lemma {:induction false} DeviceReported(os: System, lines: seq<string>, i: nat) returns (k: nat)
    requires i < |lines| && Qualifies(os, lines[i])
    ensures k < |Report(os, lines)| && DeviceOfEntry(os, Report(os, lines)[k]) == DeviceOf(os, lines[i])
    decreases i
  {
    if Reported(os, lines, i) {
      k := |Report(os, lines[..i])|;
      ReportSnoc(os, lines, i);
      ReportGrows(os, lines, i + 1, |lines|);
      assert lines[..|lines|] == lines;
    } else {
      var j :| 0 <= j < i && Qualifies(os, lines[j]) && DeviceOf(os, lines[j]) == DeviceOf(os, lines[i]);
      k := DeviceReported(os, lines, j);
    }
  }
}
