/** The parts of Go's standard library the provisioner relies on for text:
    fmt.Sprintf with string operands, strings.ToLower, strings.ReplaceAll,
    os.IsPathSeparator and filepath.Base, each for a Unix host. */
module GoText {

  // ---------------------------------------------------------------------------
  // strings.ToLower (ASCII letters only)

  function LowerChar(c: char): char {
    if 'A' <= c <= 'Z' then (c as int + 32) as char else c
  }

  /** Lower-cases every ASCII letter and keeps every other character. */
  function ToLower(s: string): (r: string)
    ensures |r| == |s|
    ensures forall i :: 0 <= i < |s| ==> r[i] == LowerChar(s[i])
    ensures forall i :: 0 <= i < |r| ==> !('A' <= r[i] <= 'Z')
  {
    if s == [] then [] else [LowerChar(s[0])] + ToLower(s[1..])
  }

  /** Lower-casing twice is lower-casing once. */
  lemma ToLowerIdempotent(s: string)
    ensures ToLower(ToLower(s)) == ToLower(s)
  {
    var once := ToLower(s);
    var twice := ToLower(once);
    assert |twice| == |once|;
    forall i | 0 <= i < |once| ensures twice[i] == once[i] {
      assert once[i] == LowerChar(s[i]);
    }
  }

  // ---------------------------------------------------------------------------
  // strings.ReplaceAll and the line-ending normalisation built on it

  /** Replaces the non-overlapping occurrences of a non-empty pattern, left to right. */
  function ReplaceAll(s: string, pattern: string, replacement: string): string
    requires pattern != []
    decreases |s|
  {
    if |s| < |pattern| then s
    else if s[..|pattern|] == pattern then replacement + ReplaceAll(s[|pattern|..], pattern, replacement)
    else [s[0]] + ReplaceAll(s[1..], pattern, replacement)
  }

  /** A text in which the first character of the pattern never occurs is left alone. */
  lemma {:induction false} ReplaceAllWithoutMatch(s: string, pattern: string, replacement: string)
    requires pattern != [] && pattern[0] !in s
    ensures ReplaceAll(s, pattern, replacement) == s
  {
    if |s| >= |pattern| {
      assert s[..|pattern|][0] == s[0];
      assert s[0] in s;
      assert forall c :: c in s[1..] ==> c in s;
      ReplaceAllWithoutMatch(s[1..], pattern, replacement);
      assert [s[0]] + s[1..] == s;
    }
  }

  /** Replacing a single character by text that lacks it removes that character. */
  lemma {:induction false} ReplaceCharRemoves(s: string, c: char, replacement: string)
    requires c !in replacement
    ensures c !in ReplaceAll(s, [c], replacement)
  {
    if |s| >= 1 {
      ReplaceCharRemoves(s[1..], c, replacement);
      if s[..1] != [c] {
        assert s[0] != c;
      }
    }
  }

  /** The expression at provisioner.go:182 and 204: CRLF first, then lone CR, become LF. */
  function NormalizeNewlines(s: string): string {
    ReplaceAll(ReplaceAll(s, "\r\n", "\n"), "\r", "\n")
  }

  lemma NormalizeRemovesCarriageReturns(s: string)
    ensures '\r' !in NormalizeNewlines(s)
  {
    ReplaceCharRemoves(ReplaceAll(s, "\r\n", "\n"), '\r', "\n");
  }

  lemma NormalizeKeepsCleanText(s: string)
    requires '\r' !in s
    ensures NormalizeNewlines(s) == s
  {
    ReplaceAllWithoutMatch(s, "\r\n", "\n");
    ReplaceAllWithoutMatch(s, "\r", "\n");
  }

  lemma NormalizeIdempotent(s: string)
    ensures NormalizeNewlines(NormalizeNewlines(s)) == NormalizeNewlines(s)
  {
    NormalizeRemovesCarriageReturns(s);
    NormalizeKeepsCleanText(NormalizeNewlines(s));
  }

  // ---------------------------------------------------------------------------
  // os.IsPathSeparator and filepath.Base on a Unix host

  predicate IsPathSeparator(c: char) {
    c == '/'
  }

  predicate EndsWithSeparator(s: string) {
    |s| > 0 && IsPathSeparator(s[|s| - 1])
  }

  /** The path without its trailing separators. */
  function TrimTrailingSeparators(p: string): (r: string)
    ensures !EndsWithSeparator(r)
    decreases |p|
  {
    if EndsWithSeparator(p) then TrimTrailingSeparators(p[..|p| - 1]) else p
  }

  /** The text after the last separator. */
  function LastElement(p: string): (r: string)
    ensures forall i :: 0 <= i < |r| ==> !IsPathSeparator(r[i])
    ensures !EndsWithSeparator(p) && p != [] ==> r != []
    decreases |p|
  {
    if p == [] || EndsWithSeparator(p) then [] else LastElement(p[..|p| - 1]) + [p[|p| - 1]]
  }

  /** Trimming keeps a prefix and drops only separators. */
  lemma {:induction false} TrimmedIsPrefix(p: string)
    ensures var r := TrimTrailingSeparators(p);
      && |r| <= |p| && r == p[..|r|]
      && forall i :: |r| <= i < |p| ==> IsPathSeparator(p[i])
    decreases |p|
  {
    if EndsWithSeparator(p) {
      var q := p[..|p| - 1];
      TrimmedIsPrefix(q);
      var r := TrimTrailingSeparators(q);
      assert q[..|r|] == p[..|r|];
    }
  }

  /** The last element is the longest suffix of the path without a separator. */
  lemma {:induction false} LastElementIsSuffix(p: string)
    ensures var r := LastElement(p);
      && |r| <= |p| && r == p[|p| - |r|..]
      && (|r| < |p| ==> IsPathSeparator(p[|p| - |r| - 1]))
    decreases |p|
  {
    if p != [] && !EndsWithSeparator(p) {
      var q := p[..|p| - 1];
      LastElementIsSuffix(q);
      var r := LastElement(q);
      assert q[|q| - |r|..] + [p[|p| - 1]] == p[|p| - |r| - 1..];
      if |r| < |q| {
        assert q[|q| - |r| - 1] == p[|p| - |r| - 2];
      }
    }
  }

  /** filepath.Base: "." for the empty path, "/" for a path of separators only,
      otherwise the last element once trailing separators are dropped. */
  function BaseName(path: string): (r: string)
    ensures r != []
    ensures r == "/" || forall i :: 0 <= i < |r| ==> !IsPathSeparator(r[i])
  {
    if path == [] then "."
    else
      var element := LastElement(TrimTrailingSeparators(path));
      if element == [] then "/" else element
  }

  /** The base name is "." for the empty path, "/" exactly for a path of
      separators only, and otherwise the last element after trailing
      separators are dropped. */
  lemma BaseNameCases(path: string)
    ensures path == [] ==> BaseName(path) == "."
    ensures path != [] && BaseName(path) != "/" ==> BaseName(path) == LastElement(TrimTrailingSeparators(path))
    ensures path != [] && BaseName(path) == "/" <==> path != [] && forall i :: 0 <= i < |path| ==> IsPathSeparator(path[i])
  {
    if path != [] {
      var t := TrimTrailingSeparators(path);
      TrimmedIsPrefix(path);
      assert LastElement(t) == [] <==> t == [];
      if t != [] {
        var e := LastElement(t);
        assert BaseName(path) == e && !IsPathSeparator(e[0]);
        assert !IsPathSeparator(path[|t| - 1]) by {
          assert t[|t| - 1] == path[|t| - 1];
        }
      }
    }
  }

  /** The base name of a directory joined with a plain name is that name. */
  lemma BaseNameOfJoin(directory: string, name: string)
    requires name != [] && forall i :: 0 <= i < |name| ==> !IsPathSeparator(name[i])
    ensures BaseName(directory + "/" + name) == name
  {
    var p := directory + ("/" + name);
    assert directory + "/" + name == p;
    var n := |name|;
    assert |p| == |directory| + 1 + n;
    assert p[|p| - n..] == name;
    assert p[|p| - n - 1] == '/';
    assert !EndsWithSeparator(p) by {
      assert p[|p| - 1] == name[n - 1];
    }
    assert TrimTrailingSeparators(p) == p;
    LastElementIsSuffix(p);
    var r := LastElement(p);
    assert |r| == n;
  }

  /** A name without a separator is its own last element. */
  lemma LastElementOfPlainName(p: string)
    requires forall i :: 0 <= i < |p| ==> !IsPathSeparator(p[i])
    ensures LastElement(p) == p
  {
    LastElementIsSuffix(p);
    var r := LastElement(p);
    assert |r| == |p|;
  }

  /** A base name is its own base name, so taking the base of os.FileInfo.Name()
      (itself the base of the stat'ed path) changes nothing. */
  lemma BaseNameIdempotent(path: string)
    ensures BaseName(BaseName(path)) == BaseName(path)
  {
    var b := BaseName(path);
    if b != "/" {
      assert !EndsWithSeparator(b);
      LastElementOfPlainName(b);
    } else {
      assert TrimTrailingSeparators("/") == TrimTrailingSeparators("");
    }
  }

  // ---------------------------------------------------------------------------
  // fmt.Sprintf with string operands and bare verbs (no flags, width or precision)

  /** What one verb prints for a string operand: %s and %v print it, any other
      verb prints Go's bad-verb annotation. */
  function VerbText(verb: char, arg: string): string {
    if verb == 's' || verb == 'v' then arg else "%!" + [verb] + "(string=" + arg + ")"
  }

  /** Scans a format from operand `next` on; returns the text and the index of
      the first operand no verb consumed. */
  function Scan(format: string, args: seq<string>, next: nat): (r: (string, nat))
    ensures next <= r.1
    ensures next <= |args| ==> r.1 <= |args|
    decreases |format|
  {
    if format == [] then ("", next)
    else if format[0] != '%' then
      var rest := Scan(format[1..], args, next);
      ([format[0]] + rest.0, rest.1)
    else if |format| == 1 then ("%!(NOVERB)", next)
    else if format[1] == '%' then
      var rest := Scan(format[2..], args, next);
      ("%" + rest.0, rest.1)
    else if next < |args| then
      var rest := Scan(format[2..], args, next + 1);
      (VerbText(format[1], args[next]) + rest.0, rest.1)
    else
      var rest := Scan(format[2..], args, next);
      ("%!" + [format[1]] + "(MISSING)" + rest.0, rest.1)
  }

  function ExtraList(args: seq<string>): string
    decreases |args|
  {
    if args == [] then ""
    else if |args| == 1 then "string=" + args[0]
    else "string=" + args[0] + ", " + ExtraList(args[1..])
  }

  /** Go appends the operands no verb consumed as "%!(EXTRA string=..., ...)". */
  function Sprintf(format: string, args: seq<string>): string {
    var scanned := Scan(format, args, 0);
    scanned.0 + (if scanned.1 < |args| then "%!(EXTRA " + ExtraList(args[scanned.1..]) + ")" else "")
  }

  /** Literal text without '%' is copied and consumes no operand. */
  lemma {:induction false} ScanLiteral(prefix: string, rest: string, args: seq<string>, next: nat)
    requires '%' !in prefix
    ensures Scan(prefix + rest, args, next) == (prefix + Scan(rest, args, next).0, Scan(rest, args, next).1)
  {
    if prefix != [] {
      assert (prefix + rest)[0] == prefix[0];
      assert (prefix + rest)[1..] == prefix[1..] + rest;
      assert prefix[0] in prefix;
      assert forall c :: c in prefix[1..] ==> c in prefix;
      ScanLiteral(prefix[1..], rest, args, next);
      assert [prefix[0]] + (prefix[1..] + Scan(rest, args, next).0) == prefix + Scan(rest, args, next).0;
    } else {
      assert prefix + rest == rest;
      assert prefix + Scan(rest, args, next).0 == Scan(rest, args, next).0;
    }
  }

  /** %s consumes the next operand and prints it. */
  lemma ScanVerbS(rest: string, args: seq<string>, next: nat)
    requires next < |args|
    ensures Scan("%s" + rest, args, next)
         == (args[next] + Scan(rest, args, next + 1).0, Scan(rest, args, next + 1).1)
  {
    assert ("%s" + rest)[2..] == rest;
  }

  /** %% prints one '%' and consumes nothing. */
  lemma ScanEscapedPercent(rest: string, args: seq<string>, next: nat)
    ensures Scan("%%" + rest, args, next) == ("%" + Scan(rest, args, next).0, Scan(rest, args, next).1)
  {
    assert ("%%" + rest)[2..] == rest;
  }

  /** An escaped percent sign followed by an 's' reads as a verb once printed. */
  lemma PercentThenS(rest: string)
    ensures "%" + ("s" + rest) == "%s" + rest
  {
    assert ("%" + ("s" + rest))[..2] == "%s";
  }

  /** A template with one %s and no other '%' has its operand substituted for it. */
  lemma SprintfOneVerb(prefix: string, suffix: string, arg: string)
    requires '%' !in prefix && '%' !in suffix
    ensures Sprintf(prefix + "%s" + suffix, [arg]) == prefix + arg + suffix
  {
    ScanLiteral(suffix, "", [arg], 1);
    assert suffix + "" == suffix;
    ScanVerbS(suffix, [arg], 0);
    ScanLiteral(prefix, "%s" + suffix, [arg], 0);
    assert prefix + "%s" + suffix == prefix + ("%s" + suffix);
  }

  /** A template without '%' prints itself followed by Go's EXTRA annotation. */
  lemma SprintfWithoutVerb(format: string, arg: string)
    requires '%' !in format
    ensures Sprintf(format, [arg]) == format + "%!(EXTRA string=" + arg + ")"
  {
    ScanLiteral(format, "", [arg], 0);
    assert format + "" == format;
  }
}
