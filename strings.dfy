/**
 * String helpers that the agent library gets from the JavaScript runtime:
 * `Array.prototype.join`, `String.prototype.trim`, the decimal rendering of
 * integers, and the `replace(/\./g, '_')` used to turn event types into tool
 * names.
 */
module Strings {

  /** `parts.join(sep)`. */
  function Join(parts: seq<string>, sep: string): string
  {
    if |parts| == 0 then ""
    else if |parts| == 1 then parts[0]
    else parts[0] + sep + Join(parts[1..], sep)
  }

  /** Joining one more part adds the separator and the part at the end. */
  lemma {:induction false} JoinSnoc(parts: seq<string>, x: string, sep: string)
    ensures Join(parts + [x], sep) == if |parts| == 0 then x else Join(parts, sep) + sep + x
  {
    if |parts| >= 2 {
      assert (parts + [x])[1..] == parts[1..] + [x];
      JoinSnoc(parts[1..], x, sep);
    } else if |parts| == 1 {
      assert (parts + [x])[1..] == [x];
    }
  }

  /** With an empty separator, joining is plain concatenation, so it distributes over `+`. */
  lemma {:induction false} JoinEmptySepAppend(p: seq<string>, q: seq<string>)
    ensures Join(p + q, "") == Join(p, "") + Join(q, "")
    decreases |p|
  {
    if |p| == 0 {
      assert p + q == q;
    } else if |p| == 1 {
      if |q| > 0 {
        assert (p + q)[1..] == q;
      } else {
        assert p + q == p;
      }
    } else {
      assert (p + q)[1..] == p[1..] + q;
      JoinEmptySepAppend(p[1..], q);
    }
  }

  /** The characters `String.prototype.trim` removes: white space and line terminators. */
  predicate IsWhitespace(c: char)
  {
    c == ' ' || c == '\t' || c == '\n' || c == '\r'
    || c as int == 0x0B || c as int == 0x0C || c as int == 0xA0 || c as int == 0xFEFF
    || c as int == 0x1680 || (0x2000 <= c as int <= 0x200A) || c as int == 0x2028
    || c as int == 0x2029 || c as int == 0x202F || c as int == 0x205F || c as int == 0x3000
  }

  predicate AllWhitespace(s: string)
  {
    forall i :: 0 <= i < |s| ==> IsWhitespace(s[i])
  }

  function TrimStart(s: string): string
  {
    if |s| > 0 && IsWhitespace(s[0]) then TrimStart(s[1..]) else s
  }

  function TrimEnd(s: string): string
  {
    if |s| > 0 && IsWhitespace(s[|s| - 1]) then TrimEnd(s[..|s| - 1]) else s
  }

  /** `s.trim()` */
  function Trim(s: string): string
  {
    TrimEnd(TrimStart(s))
  }

  /** Leading white space is dropped by `TrimStart`. */
  lemma {:induction false} TrimStartSkips(w: string, s: string)
    requires AllWhitespace(w)
    ensures TrimStart(w + s) == TrimStart(s)
    decreases |w|
  {
    if |w| > 0 {
      assert (w + s)[1..] == w[1..] + s;
      TrimStartSkips(w[1..], s);
    } else {
      assert w + s == s;
    }
  }

  /** Trailing white space is dropped by `TrimEnd`. */
  lemma {:induction false} TrimEndSkips(s: string, w: string)
    requires AllWhitespace(w)
    ensures TrimEnd(s + w) == TrimEnd(s)
    decreases |w|
  {
    if |w| > 0 {
      assert (s + w)[..|s + w| - 1] == s + w[..|w| - 1];
      TrimEndSkips(s, w[..|w| - 1]);
    } else {
      assert s + w == s;
    }
  }

  /** `TrimEnd` of a concatenation: the left part survives untouched unless the right part is all white space. */
  lemma {:induction false} TrimEndAppend(s: string, t: string)
    ensures TrimEnd(s + t) == if TrimEnd(t) == "" then TrimEnd(s) else s + TrimEnd(t)
    decreases |t|
  {
    if |t| == 0 {
      assert s + t == s;
    } else if IsWhitespace(t[|t| - 1]) {
      assert (s + t)[..|s + t| - 1] == s + t[..|t| - 1];
      TrimEndAppend(s, t[..|t| - 1]);
    } else {
      assert (s + t)[|s + t| - 1] == t[|t| - 1];
    }
  }

  /** `TrimStart` of a concatenation whose left part starts with a non-white-space character. */
  lemma TrimStartKeeps(s: string, t: string)
    requires |s| > 0 && !IsWhitespace(s[0])
    ensures TrimStart(s + t) == s + t
  {
    assert (s + t)[0] == s[0];
  }

  /** Trimming a string that is padded with white space on both sides and has non-white-space ends gives it back. */
  lemma TrimPadded(w1: string, s: string, w2: string)
    requires AllWhitespace(w1) && AllWhitespace(w2)
    requires |s| > 0 && !IsWhitespace(s[0]) && !IsWhitespace(s[|s| - 1])
    ensures Trim(w1 + s + w2) == s
  {
    assert w1 + s + w2 == w1 + (s + w2);
    TrimStartSkips(w1, s + w2);
    TrimStartKeeps(s, w2);
    TrimEndSkips(s, w2);
  }

  /** `TrimStart` of a concatenation: the right part survives untouched unless the left part is all white space. */
  lemma {:induction false} TrimStartAppend(s: string, t: string)
    ensures TrimStart(s + t) == if TrimStart(s) == "" then TrimStart(t) else TrimStart(s) + t
    decreases |s|
  {
    if |s| == 0 {
      assert s + t == t;
    } else if IsWhitespace(s[0]) {
      assert (s + t)[1..] == s[1..] + t;
      TrimStartAppend(s[1..], t);
    } else {
      assert (s + t)[0] == s[0];
    }
  }

  /** What `TrimStart` leaves is empty or starts with a non-white-space character, and is a suffix of its input. */
  lemma {:induction false} TrimStartShape(s: string)
    ensures TrimStart(s) == "" || !IsWhitespace(TrimStart(s)[0])
    ensures |TrimStart(s)| <= |s| && TrimStart(s) == s[|s| - |TrimStart(s)|..]
  {
    if |s| > 0 && IsWhitespace(s[0]) {
      TrimStartShape(s[1..]);
    }
  }

  /** What `TrimEnd` leaves is empty or ends with a non-white-space character, and is a prefix of its input. */
  lemma {:induction false} TrimEndShape(s: string)
    ensures TrimEnd(s) == "" || !IsWhitespace(TrimEnd(s)[|TrimEnd(s)| - 1])
    ensures TrimEnd(s) <= s
  {
    if |s| > 0 && IsWhitespace(s[|s| - 1]) {
      TrimEndShape(s[..|s| - 1]);
    }
  }

  /** A trimmed string is empty or has a non-white-space character at both ends. */
  lemma TrimShape(s: string)
    ensures Trim(s) == "" || (!IsWhitespace(Trim(s)[0]) && !IsWhitespace(Trim(s)[|Trim(s)| - 1]))
  {
    TrimStartShape(s);
    TrimEndShape(TrimStart(s));
  }

  /**
   * The shape of the prompt templates: a head with non-white-space ends,
   * a blank line, a tail, all padded with white space. Trimming keeps the
   * head and the blank line, and trims the end of the tail (dropping the
   * blank line too when the tail is blank).
   */
  lemma TrimFramed(w1: string, head: string, tail: string, w2: string)
    requires AllWhitespace(w1) && AllWhitespace(w2)
    requires |head| > 0 && !IsWhitespace(head[0]) && !IsWhitespace(head[|head| - 1])
    ensures Trim(w1 + head + "\n\n" + tail + w2) == if TrimEnd(tail) == "" then head else head + "\n\n" + TrimEnd(tail)
  {
    var rest := "\n\n" + tail + w2;
    assert w1 + head + "\n\n" + tail + w2 == w1 + (head + rest);
    TrimStartSkips(w1, head + rest);
    TrimStartKeeps(head, rest);
    assert head + rest == (head + "\n\n") + (tail + w2);
    TrimEndAppend(head + "\n\n", tail + w2);
    TrimEndSkips(tail, w2);
    assert AllWhitespace("\n\n");
    TrimEndSkips(head, "\n\n");
  }

  /** The same shape with an empty head: the result is the trimmed tail. */
  lemma TrimBlankHead(w1: string, tail: string, w2: string)
    requires AllWhitespace(w1) && AllWhitespace(w2)
    ensures Trim(w1 + "\n\n" + tail + w2) == Trim(tail)
  {
    assert AllWhitespace(w1 + "\n\n");
    assert w1 + "\n\n" + tail + w2 == (w1 + "\n\n") + (tail + w2);
    TrimStartSkips(w1 + "\n\n", tail + w2);
    TrimStartAppend(tail, w2);
    if TrimStart(tail) == "" {
      TrimStartSkips(w2, "");
      assert w2 + "" == w2;
    } else {
      TrimEndSkips(TrimStart(tail), w2);
    }
  }

  /** A trimmed head, a blank line and a tail that needs no trimming: the blank line goes only when the head is empty. */
  lemma TrimAfterTrimmed(u: string, tail: string, w1: string, w2: string)
    requires AllWhitespace(w1) && AllWhitespace(w2)
    requires |tail| > 0 && !IsWhitespace(tail[0]) && !IsWhitespace(tail[|tail| - 1])
    ensures var t := Trim(u); Trim(w1 + t + "\n\n" + tail + w2) == if t == "" then tail else t + "\n\n" + tail
  {
    var t := Trim(u);
    TrimShape(u);
    assert TrimEnd(tail) == tail;
    if t == "" {
      assert w1 + t + "\n\n" + tail + w2 == w1 + "\n\n" + tail + w2;
      TrimBlankHead(w1, tail, w2);
      TrimPadded("", tail, "");
      assert "" + tail + "" == tail;
    } else {
      TrimFramed(w1, t, tail, w2);
    }
  }

  /** Decimal digits of a natural number, most significant first. */
  function NatToString(n: nat): (r: string)
    ensures |r| > 0
    ensures forall i :: 0 <= i < |r| ==> '0' <= r[i] <= '9'
  {
    if n < 10 then [DigitChar(n)] else NatToString(n / 10) + [DigitChar(n % 10)]
  }

  function DigitChar(d: nat): char
    requires d < 10
  {
    (48 + d) as char
  }

  /** `String(n)` for an integer-valued number. */
  function IntToString(n: int): string
  {
    if n < 0 then "-" + NatToString(-n) else NatToString(n)
  }

  /** `s.replace(/\./g, '_')`: every dot becomes an underscore, nothing else changes. */
  function ReplaceDots(s: string): (r: string)
    ensures |r| == |s|
    ensures forall i :: 0 <= i < |s| ==> r[i] == (if s[i] == '.' then '_' else s[i])
  {
    if |s| == 0 then "" else [if s[0] == '.' then '_' else s[0]] + ReplaceDots(s[1..])
  }

  /** A tool name never contains a dot. */
  lemma {:induction false} ReplaceDotsHasNoDot(s: string)
    ensures '.' !in ReplaceDots(s)
  {
    var r := ReplaceDots(s);
    forall i | 0 <= i < |r| ensures r[i] != '.' {
    }
  }

  /** Renaming is idempotent, and leaves dot-free names alone. */
  lemma ReplaceDotsIdempotent(s: string)
    ensures ReplaceDots(ReplaceDots(s)) == ReplaceDots(s)
    ensures '.' !in s ==> ReplaceDots(s) == s
  {
  }

  /** Two different event types can collapse to one tool name: the mapping is not injective. */
  lemma ReplaceDotsCollides()
    ensures ReplaceDots("a.b") == ReplaceDots("a_b") && "a.b" != "a_b"
  {
    assert ReplaceDots("a.b") == "a_b";
    assert ReplaceDots("a_b") == "a_b";
    assert "a.b"[1] != "a_b"[1];
  }
}
