/**
 * The JavaScript string primitives the molecule-string parser relies on:
 * `String.prototype.split` with a one-character separator, `trim()`, and
 * `split(/\s+/)`. Strings are sequences of Unicode scalar values.
 */
module JsStrings {

  /** The characters `trim()` removes and `\s` matches: the ECMAScript
      WhiteSpace and LineTerminator code points. */
  predicate IsSpace(c: char) {
    || c == ' ' || c == '\t' || c == '\n' || c == '\r'
    || c == '\U{000B}' || c == '\U{000C}' || c == '\U{00A0}' || c == '\U{FEFF}'
    || c == '\U{1680}' || ('\U{2000}' <= c <= '\U{200A}')
    || c == '\U{2028}' || c == '\U{2029}' || c == '\U{202F}' || c == '\U{205F}'
    || c == '\U{3000}'
  }

  /** A non-empty run of characters none of which is white space. */
  predicate IsToken(s: string) {
    |s| > 0 && forall i :: 0 <= i < |s| ==> !IsSpace(s[i])
  }

  /** `s.split(sep)` for a one-character separator: every piece between
      separators, including empty ones; the empty string gives `[""]`. */
  function Split(s: string, sep: char): (pieces: seq<string>)
    ensures |pieces| >= 1
    decreases |s|
  {
    if |s| == 0 then [""]
    else if s[0] == sep then [""] + Split(s[1..], sep)
    else
      var rest := Split(s[1..], sep);
      [[s[0]] + rest[0]] + rest[1..]
  }

  /** No piece contains the separator. */
  lemma {:induction false} SplitPiecesFree(s: string, sep: char)
    ensures forall k :: 0 <= k < |Split(s, sep)| ==> sep !in Split(s, sep)[k]
    decreases |s|
  {
    if |s| > 0 {
      SplitPiecesFree(s[1..], sep);
      if s[0] != sep {
        var rest := Split(s[1..], sep);
        assert Split(s, sep)[1..] == rest[1..];
      }
    }
  }

  /** `pieces.join(sep)`, the inverse of `Split`. */
  function Join(pieces: seq<string>, sep: char): string
    requires |pieces| >= 1
    decreases |pieces|
  {
    if |pieces| == 1 then pieces[0] else pieces[0] + [sep] + Join(pieces[1..], sep)
  }

  lemma {:induction false} SplitNoSeparator(a: string, sep: char)
    requires sep !in a
    ensures Split(a, sep) == [a]
  {
    if |a| > 0 {
      SplitNoSeparator(a[1..], sep);
      assert [a[0]] + a[1..] == a;
    }
  }

  /** Splitting at the first separator peels off the text before it. */
  lemma {:induction false} SplitCons(a: string, sep: char, b: string)
    requires sep !in a
    ensures Split(a + [sep] + b, sep) == [a] + Split(b, sep)
  {
    if |a| == 0 {
      assert a + [sep] + b == [sep] + b;
      assert ([sep] + b)[1..] == b;
    } else {
      SplitCons(a[1..], sep, b);
      assert (a + [sep] + b)[1..] == a[1..] + [sep] + b;
      assert [a[0]] + a[1..] == a;
    }
  }

  /** Splitting around one separator splits each side. */
  lemma {:induction false} SplitAround(x: string, sep: char, y: string)
    ensures Split(x + [sep] + y, sep) == Split(x, sep) + Split(y, sep)
    decreases |x|
  {
    var s := x + [sep] + y;
    if |x| == 0 {
      assert s[1..] == y;
    } else {
      assert s[1..] == x[1..] + [sep] + y;
      SplitAround(x[1..], sep, y);
      if x[0] != sep {
        var left := Split(x[1..], sep);
        assert (left + Split(y, sep))[1..] == left[1..] + Split(y, sep);
      }
    }
  }

  /** Joining what `Split` returns gives the original text back. */
  lemma {:induction false} JoinSplit(s: string, sep: char)
    ensures Join(Split(s, sep), sep) == s
    decreases |s|
  {
    if |s| > 0 {
      JoinSplit(s[1..], sep);
      var rest := Split(s[1..], sep);
      if s[0] == sep {
        assert [sep] + s[1..] == s;
      } else if |rest| == 1 {
        assert [s[0]] + rest[0] == s;
      } else {
        assert Join(rest, sep) == rest[0] + [sep] + Join(rest[1..], sep);
        var pieces := [[s[0]] + rest[0]] + rest[1..];
        assert pieces[1..] == rest[1..];
        assert [s[0]] + s[1..] == s;
      }
    }
  }

  /** Splitting the join of separator-free pieces gives the pieces back. */
  lemma {:induction false} SplitJoin(pieces: seq<string>, sep: char)
    requires |pieces| >= 1
    requires forall k :: 0 <= k < |pieces| ==> sep !in pieces[k]
    ensures Split(Join(pieces, sep), sep) == pieces
    decreases |pieces|
  {
    if |pieces| == 1 {
      SplitNoSeparator(pieces[0], sep);
    } else {
      SplitJoin(pieces[1..], sep);
      SplitCons(pieces[0], sep, Join(pieces[1..], sep));
      assert [pieces[0]] + pieces[1..] == pieces;
    }
  }

  /** `s.trimStart()`: drops the leading white space. */
  function TrimStart(s: string): (t: string)
    ensures |t| <= |s|
    decreases |s|
  {
    if |s| > 0 && IsSpace(s[0]) then TrimStart(s[1..]) else s
  }

  /** `trimStart()` keeps a suffix that does not start with white space and
      drops only white space. */
  lemma {:induction false} TrimStartDrops(s: string)
    ensures var t := TrimStart(s);
      && t == s[|s| - |t|..]
      && (t == [] || !IsSpace(t[0]))
      && (forall i :: 0 <= i < |s| - |t| ==> IsSpace(s[i]))
    decreases |s|
  {
    if |s| > 0 && IsSpace(s[0]) {
      TrimStartDrops(s[1..]);
    }
  }

  /** `s.trimEnd()`: drops the trailing white space. */
  function TrimEnd(s: string): (t: string)
    ensures |t| <= |s|
    decreases |s|
  {
    if |s| > 0 && IsSpace(s[|s| - 1]) then TrimEnd(s[..|s| - 1]) else s
  }

  /** `trimEnd()` keeps a prefix that does not end with white space and
      drops only white space. */
  lemma {:induction false} TrimEndDrops(s: string)
    ensures var t := TrimEnd(s);
      && t == s[..|t|]
      && (t == [] || !IsSpace(t[|t| - 1]))
      && (forall i :: |t| <= i < |s| ==> IsSpace(s[i]))
    decreases |s|
  {
    if |s| > 0 && IsSpace(s[|s| - 1]) {
      TrimEndDrops(s[..|s| - 1]);
    }
  }

  /** `s.trim()`. */
  function Trim(s: string): string {
    TrimEnd(TrimStart(s))
  }

  /** `s.split(/\s+/)`: the pieces between maximal runs of white space.
      A leading run gives an empty first piece, a trailing run an empty
      last piece, and the empty string gives `[""]`. */
  function SplitWs(s: string): (pieces: seq<string>)
    ensures |pieces| >= 1
    decreases |s|
  {
    if |s| == 0 then [""]
    else if IsSpace(s[0]) then [""] + SplitWs(TrimStart(s))
    else
      var rest := SplitWs(s[1..]);
      [[s[0]] + rest[0]] + rest[1..]
  }

  /** `tokens.join(" ")`. */
  function JoinWords(tokens: seq<string>): string
    requires |tokens| >= 1
    decreases |tokens|
  {
    if |tokens| == 1 then tokens[0] else tokens[0] + " " + JoinWords(tokens[1..])
  }

  lemma {:induction false} SplitWsToken(t: string)
    requires IsToken(t) || t == ""
    ensures SplitWs(t) == [t]
    decreases |t|
  {
    if |t| > 0 {
      assert IsToken(t[1..]) || t[1..] == "" by {
        assert forall i :: 0 <= i < |t[1..]| ==> t[1..][i] == t[i + 1];
      }
      SplitWsToken(t[1..]);
      assert [t[0]] + t[1..] == t;
    }
  }

  /** A token followed by one space peels off as the first field. */
  lemma {:induction false} SplitWsCons(t: string, rest: string)
    requires IsToken(t)
    requires rest != [] && !IsSpace(rest[0])
    ensures SplitWs(t + " " + rest) == [t] + SplitWs(rest)
    decreases |t|
  {
    var s := t + " " + rest;
    if |t| == 1 {
      assert s[1..] == " " + rest;
      assert (" " + rest)[1..] == rest;
      assert TrimStart(rest) == rest;
      assert TrimStart(" " + rest) == rest;
      assert SplitWs(s[1..]) == [""] + SplitWs(rest);
      assert [t[0]] + "" == t;
    } else {
      assert IsToken(t[1..]) by {
        assert forall i :: 0 <= i < |t[1..]| ==> t[1..][i] == t[i + 1];
      }
      SplitWsCons(t[1..], rest);
      assert s[1..] == t[1..] + " " + rest;
      assert [t[0]] + t[1..] == t;
    }
  }

  /** Words joined by single spaces split back into the same words. */
  lemma {:induction false} SplitWsJoinWords(tokens: seq<string>)
    requires |tokens| >= 1
    requires forall k :: 0 <= k < |tokens| ==> IsToken(tokens[k])
    ensures SplitWs(JoinWords(tokens)) == tokens
    decreases |tokens|
  {
    if |tokens| == 1 {
      SplitWsToken(tokens[0]);
    } else {
      SplitWsJoinWords(tokens[1..]);
      var rest := JoinWords(tokens[1..]);
      JoinWordsTrimmed(tokens[1..]);
      SplitWsCons(tokens[0], rest);
      assert [tokens[0]] + tokens[1..] == tokens;
    }
  }

  /** Words joined by spaces neither start nor end with white space. */
  lemma {:induction false} JoinWordsTrimmed(tokens: seq<string>)
    requires |tokens| >= 1
    requires forall k :: 0 <= k < |tokens| ==> IsToken(tokens[k])
    ensures var s := JoinWords(tokens); |s| > 0 && !IsSpace(s[0]) && !IsSpace(s[|s| - 1])
    decreases |tokens|
  {
    assert IsToken(tokens[0]);
    if |tokens| > 1 {
      JoinWordsTrimmed(tokens[1..]);
    }
  }

  /** Text with no white space at either end is left alone by `trim()`. */
  lemma TrimUntouched(s: string)
    requires s == [] || (!IsSpace(s[0]) && !IsSpace(s[|s| - 1]))
    ensures Trim(s) == s
  {
  }

  /** `trim()` removes a run of leading white space. */
  lemma {:induction false} TrimLeading(lead: string, s: string)
    requires forall i :: 0 <= i < |lead| ==> IsSpace(lead[i])
    requires s == [] || (!IsSpace(s[0]) && !IsSpace(s[|s| - 1]))
    ensures Trim(lead + s) == s
    decreases |lead|
  {
    if |lead| == 0 {
      assert lead + s == s;
    } else {
      assert (lead + s)[1..] == lead[1..] + s;
      TrimLeading(lead[1..], s);
    }
  }

  /** The fields `line.trim().split(/\s+/)` reads from a record written as
      optional leading spaces and single-space-separated words. */
  lemma FieldsOfWords(lead: string, tokens: seq<string>)
    requires forall i :: 0 <= i < |lead| ==> IsSpace(lead[i])
    requires |tokens| >= 1
    requires forall k :: 0 <= k < |tokens| ==> IsToken(tokens[k])
    ensures SplitWs(Trim(lead + JoinWords(tokens))) == tokens
  {
    JoinWordsTrimmed(tokens);
    TrimLeading(lead, JoinWords(tokens));
    SplitWsJoinWords(tokens);
  }
}
