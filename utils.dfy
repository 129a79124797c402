/**
 * The two string helpers of src/utils.ts that the message engine uses:
 * `countCharacter` (a counting loop) and `escapeMessage` (a global replace
 * of `-` by `\-`).
 */
module Utils {

  /** Number of positions of `s` that hold `c`, accumulated from the left. */
  function Occurrences(s: string, c: char): nat
  {
    if s == [] then 0
    else Occurrences(s[..|s| - 1], c) + (if s[|s| - 1] == c then 1 else 0)
  }

  /** The positions of `s` that hold `c`. */
  ghost function Positions(s: string, c: char): set<nat>
  {
    set i: nat | i < |s| && s[i] == c
  }

  /** Occurrences counts exactly the positions holding the character. */
  lemma {:induction false} OccurrencesArePositions(s: string, c: char)
    ensures Occurrences(s, c) == |Positions(s, c)|
  {
    if s != [] {
      var t := s[..|s| - 1];
      OccurrencesArePositions(t, c);
      if s[|s| - 1] == c {
        assert Positions(s, c) == Positions(t, c) + {|s| - 1};
      } else {
        assert Positions(s, c) == Positions(t, c);
      }
    }
  }

  /** A count never exceeds the length, and the empty string counts nothing. */
  lemma {:induction false} OccurrencesBound(s: string, c: char)
    ensures Occurrences(s, c) <= |s|
    ensures s == [] ==> Occurrences(s, c) == 0
  {
    if s != [] {
      OccurrencesBound(s[..|s| - 1], c);
    }
  }

  /** Counting distributes over concatenation. */
  lemma {:induction false} OccurrencesConcat(a: string, b: string, c: char)
    ensures Occurrences(a + b, c) == Occurrences(a, c) + Occurrences(b, c)
  {
    if b == [] {
      assert a + b == a;
    } else {
      assert (a + b)[..|a + b| - 1] == a + b[..|b| - 1];
      OccurrencesConcat(a, b[..|b| - 1], c);
    }
  }

  /** Counting from the front: the first character, then the rest. */
  lemma OccurrencesCons(x: char, s: string, c: char)
    ensures Occurrences([x] + s, c) == (if x == c then 1 else 0) + Occurrences(s, c)
  {
    OccurrencesConcat([x], s, c);
    assert [x][..0] == [];
  }

  /** The count is zero exactly when the character does not occur. */
  lemma {:induction false} OccurrencesZeroIff(s: string, c: char)
    ensures Occurrences(s, c) == 0 <==> c !in s
  {
    if s != [] {
      var t := s[..|s| - 1];
      OccurrencesZeroIff(t, c);
      assert s == t + [s[|s| - 1]];
      assert c in s <==> c in t || s[|s| - 1] == c;
    }
  }

  /** `countCharacter`: walks the string and counts the characters equal to `c`. */
  method CountCharacter(s: string, c: char) returns (count: nat)
    ensures count == Occurrences(s, c)
    ensures count <= |s|
  {
    count := 0;
    for i := 0 to |s|
      invariant count == Occurrences(s[..i], c)
    {
      assert s[..i + 1][..i] == s[..i];
      if s[i] == c {
        count := count + 1;
      }
    }
    assert s[..|s|] == s;
    OccurrencesBound(s, c);
  }

  /** `escapeMessage`: every `-` becomes `\-`; every other character is kept. */
  function EscapeMessage(message: string): string
  {
    if message == [] then []
    else (if message[0] == '-' then "\\-" else [message[0]]) + EscapeMessage(message[1..])
  }

  /** Undoes EscapeMessage: every `\-` pair becomes `-`. */
  function Unescape(s: string): string
  {
    if |s| >= 2 && s[0] == '\\' && s[1] == '-' then "-" + Unescape(s[2..])
    else if s == [] then []
    else [s[0]] + Unescape(s[1..])
  }

  /** Each escaped dash adds exactly one character. */
  lemma {:induction false} EscapeLength(s: string)
    ensures |EscapeMessage(s)| == |s| + Occurrences(s, '-')
  {
    if s != [] {
      EscapeLength(s[1..]);
      assert s == [s[0]] + s[1..];
      OccurrencesCons(s[0], s[1..], '-');
    }
  }

  /** Escaping neither adds nor removes dashes. */
  lemma {:induction false} EscapeKeepsDashes(s: string)
    ensures Occurrences(EscapeMessage(s), '-') == Occurrences(s, '-')
  {
    if s != [] {
      EscapeKeepsDashes(s[1..]);
      var head := if s[0] == '-' then "\\-" else [s[0]];
      OccurrencesConcat(head, EscapeMessage(s[1..]), '-');
      assert s == [s[0]] + s[1..];
      OccurrencesCons(s[0], s[1..], '-');
      if s[0] == '-' {
        OccurrencesCons('\\', "-", '-');
        OccurrencesCons('-', [], '-');
      } else {
        OccurrencesCons(s[0], [], '-');
      }
    }
  }

  /** A message without dashes is left as it is. */
  lemma {:induction false} EscapeFixedPoint(s: string)
    requires '-' !in s
    ensures EscapeMessage(s) == s
  {
    if s != [] {
      assert s[0] != '-';
      assert '-' !in s[1..] by {
        forall i | 0 <= i < |s[1..]| ensures s[1..][i] != '-' {
          assert s[1..][i] == s[i + 1];
        }
      }
      EscapeFixedPoint(s[1..]);
    }
  }

  /** Every dash of an escaped message is preceded by a backslash. */
  lemma {:induction false} EscapedDashesArePreceded(s: string)
    ensures forall i | 0 <= i < |EscapeMessage(s)| && EscapeMessage(s)[i] == '-' ::
      i > 0 && EscapeMessage(s)[i - 1] == '\\'
  {
    if s != [] {
      EscapedDashesArePreceded(s[1..]);
      var head := if s[0] == '-' then "\\-" else [s[0]];
      var rest := EscapeMessage(s[1..]);
      assert EscapeMessage(s) == head + rest;
      assert rest != [] ==> rest[0] != '-';
      forall i | 0 <= i < |head + rest| && (head + rest)[i] == '-'
        ensures i > 0 && (head + rest)[i - 1] == '\\'
      {
        if i >= |head| {
          assert (head + rest)[i] == rest[i - |head|];
          if i - |head| > 0 {
            assert (head + rest)[i - 1] == rest[i - |head| - 1];
          }
        }
      }
    }
  }

  /** Unescaping an escaped message gives the message back. */
  lemma {:induction false} UnescapeEscape(s: string)
    ensures Unescape(EscapeMessage(s)) == s
  {
    if s != [] {
      UnescapeEscape(s[1..]);
      var rest := EscapeMessage(s[1..]);
      EscapedDashesArePreceded(s[1..]);
      assert rest != [] ==> rest[0] != '-';
      if s[0] == '-' {
        assert EscapeMessage(s) == "\\-" + rest;
        assert ("\\-" + rest)[2..] == rest;
      } else {
        assert EscapeMessage(s) == [s[0]] + rest;
        assert ([s[0]] + rest)[1..] == rest;
      }
      assert s == [s[0]] + s[1..];
    }
  }
}
