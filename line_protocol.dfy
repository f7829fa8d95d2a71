/**
 * The line protocol of the shell: reading one line from the client stream
 * (std::getline), dropping one trailing carriage return, and splitting the
 * line into arguments on single spaces (make_args).
 */
module LineProtocol {

  /** The prompt written after every processed line. */
  const Prompt: string := "> "

  /** Index of the first occurrence of c in s, or |s| when there is none. */
  function IndexOf(s: string, c: char): (i: nat)
    ensures i <= |s|
    ensures forall k :: 0 <= k < i ==> s[k] != c
    ensures i < |s| ==> s[i] == c
  {
    if s == [] || s[0] == c then 0 else 1 + IndexOf(s[1..], c)
  }

  /** The position of c is determined by the two facts IndexOf promises. */
  lemma IndexOfIs(s: string, c: char, j: nat)
    requires j <= |s|
    requires forall k :: 0 <= k < j ==> s[k] != c
    requires j < |s| ==> s[j] == c
    ensures IndexOf(s, c) == j
  {
  }

  /** The tokens of a suffix start with the token that ends at the next space. */
  lemma TokensFrom(s: string, pos: nat, end: nat)
    requires pos < |s| && pos <= end <= |s|
    requires forall k :: pos <= k < end ==> s[k] != ' '
    requires end < |s| ==> s[end] == ' '
    ensures Tokens(s[pos..]) == [s[pos..end]] + (if end < |s| then Tokens(s[end + 1..]) else [])
  {
    var t := s[pos..];
    IndexOfIs(t, ' ', end - pos);
    assert t[..end - pos] == s[pos..end];
    if end < |s| {
      assert t[end - pos + 1..] == s[end + 1..];
      assert Tokens(t) == [t[..end - pos]] + Tokens(t[end - pos + 1..]);
    } else {
      assert t == s[pos..end];
      assert Tokens(t) == [t];
      assert [s[pos..end]] + [] == [t];
    }
  }

  /**
   * The tokens that repeated std::getline(iss, token, ' ') extracts from s:
   * every space ends a token, and a final empty token (after a trailing
   * space, or of the empty line) is not extracted.
   */
  function Tokens(s: string): seq<string>
    decreases |s|
  {
    if s == [] then []
    else
      var i := IndexOf(s, ' ');
      if i == |s| then [s] else [s[..i]] + Tokens(s[i + 1..])
  }

  /** The tokens joined back with single spaces. */
  function Join(ts: seq<string>): string
  {
    if ts == [] then ""
    else if |ts| == 1 then ts[0]
    else ts[0] + " " + Join(ts[1..])
  }

  /** The number of spaces in s. */
  function Spaces(s: string): nat
  {
    if s == [] then 0 else (if s[0] == ' ' then 1 else 0) + Spaces(s[1..])
  }

  /**
   * make_args: one std::getline call per iteration of the outer loop, each
   * reading up to and consuming the next space.
   */
  method MakeArgs(s: string) returns (args: seq<string>)
    ensures args == Tokens(s)
    ensures s == [] ==> args == []
  {
    args := [];
    var pos := 0;
    while pos < |s|
      invariant pos <= |s|
      invariant args + Tokens(s[pos..]) == Tokens(s)
      decreases |s| - pos
    {
      var end := NextSpace(s, pos);
      var token := s[pos..end];
      var next := if end < |s| then end + 1 else end;
      assert Tokens(s[pos..]) == [token] + Tokens(s[next..]) by {
        TokensFrom(s, pos, end);
        if end == |s| {
          assert s[next..] == [];
        }
      }
      args := args + [token];
      pos := next;
    }
  }

  /** One std::getline(iss, token, ' '): the position of the next space from pos, or the end. */
  method NextSpace(s: string, pos: nat) returns (end: nat)
    requires pos <= |s|
    ensures pos <= end <= |s|
    ensures forall k :: pos <= k < end ==> s[k] != ' '
    ensures end < |s| ==> s[end] == ' '
  {
    end := pos;
    while end < |s| && s[end] != ' '
      invariant pos <= end <= |s|
      invariant forall k :: pos <= k < end ==> s[k] != ' '
    {
      end := end + 1;
    }
  }

  /** No token contains a space. */
  lemma {:induction false} TokensHaveNoSpace(s: string)
    ensures forall k :: 0 <= k < |Tokens(s)| ==> ' ' !in Tokens(s)[k]
    decreases |s|
  {
    if s != [] {
      var i := IndexOf(s, ' ');
      if i < |s| {
        TokensHaveNoSpace(s[i + 1..]);
        assert ' ' !in s[..i] by {
          forall k | 0 <= k < i ensures s[..i][k] != ' ' { }
        }
      } else {
        assert ' ' !in s by {
          forall k | 0 <= k < |s| ensures s[k] != ' ' { }
        }
      }
    }
  }

  /** A line leads to no tokens exactly when it is empty. */
  lemma TokensEmptyIff(s: string)
    ensures Tokens(s) == [] <==> s == []
  {
  }

  /** Joining the tokens of a line that does not end in a space gives the line back. */
  lemma {:induction false} JoinTokens(s: string)
    requires s != [] && s[|s| - 1] != ' '
    ensures Join(Tokens(s)) == s
    decreases |s|
  {
    var i := IndexOf(s, ' ');
    if i < |s| {
      var head, rest := s[..i], s[i + 1..];
      assert Tokens(s) == [head] + Tokens(rest);
      assert rest != [] && rest[|rest| - 1] == s[|s| - 1];
      assert Join(Tokens(rest)) == rest by {
        JoinTokens(rest);
      }
      assert Join([head] + Tokens(rest)) == head + " " + rest by {
        TokensEmptyIff(rest);
        JoinCons(head, Tokens(rest));
      }
      assert s == head + " " + rest;
    }
  }

  /** Joining a token in front of a non-empty list puts one space between them. */
  lemma JoinCons(t: string, ts: seq<string>)
    requires ts != []
    ensures Join([t] + ts) == t + " " + Join(ts)
  {
    assert ([t] + ts)[1..] == ts;
  }

  /**
   * Splitting a join gives the tokens back, when none contains a space and
   * the last one is not empty.
   */
  lemma {:induction false} TokensJoin(ts: seq<string>)
    requires ts != []
    requires forall k :: 0 <= k < |ts| ==> ' ' !in ts[k]
    requires ts[|ts| - 1] != ""
    ensures Tokens(Join(ts)) == ts
    decreases |ts|
  {
    if |ts| == 1 {
      IndexOfIs(ts[0], ' ', |ts[0]|);
    } else {
      var head, tail := ts[0], Join(ts[1..]);
      var s := head + " " + tail;
      assert Join(ts) == s;
      IndexOfIs(s, ' ', |head|);
      assert s[..|head|] == head;
      assert s[|head| + 1..] == tail;
      TokensJoin(ts[1..]);
      assert s != [];
      assert Tokens(s) == [head] + Tokens(tail);
    }
  }

  /** Two consecutive spaces produce an empty token between its neighbours. */
  lemma ConsecutiveSpaces(a: string, b: string)
    requires ' ' !in a
    ensures Tokens(a + "  " + b) == [a, ""] + Tokens(b)
  {
    var s := a + "  " + b;
    IndexOfIs(s, ' ', |a|);
    assert s[..|a|] == a;
    var t := s[|a| + 1..];
    assert t == " " + b;
    IndexOfIs(t, ' ', 0);
    assert t[..0] == "";
    assert t[1..] == b;
  }

  /**
   * Every space ends one token, and a line that does not end in a space has
   * one more token after its last space.
   */
  lemma {:induction false} TokensCount(s: string)
    ensures |Tokens(s)| == Spaces(s) + (if s != [] && s[|s| - 1] != ' ' then 1 else 0)
    decreases |s|
  {
    if s != [] {
      var i := IndexOf(s, ' ');
      SpacesSplit(s, i);
      if i < |s| {
        TokensCount(s[i + 1..]);
        if i + 1 < |s| {
          assert s[i + 1..][|s| - i - 2] == s[|s| - 1];
        }
      }
    }
  }

  /** The spaces of a line, counted before and from a position with no space before it. */
  lemma {:induction false} SpacesSplit(s: string, i: nat)
    requires i <= |s|
    requires forall k :: 0 <= k < i ==> s[k] != ' '
    ensures Spaces(s) == Spaces(s[i..])
    decreases i
  {
    if i > 0 {
      assert s[0] != ' ';
      SpacesSplit(s[1..], i - 1);
      assert s[1..][i - 1..] == s[i..];
    }
  }

  /** std::getline on the client stream. */
  datatype LineRead =
    | Line(text: string, rest: string)  // a line ended by '\n', and what follows it
    | EndOfStream                       // eof or fail is set, so the line is dropped

  /**
   * A read only succeeds for a line ended by '\n': a final line without one
   * sets eofbit and is treated as the end of the stream.
   */
  function GetLine(input: string): (r: LineRead)
    ensures r.Line? <==> '\n' in input
    ensures r.Line? ==> '\n' !in r.text && input == r.text + "\n" + r.rest
  {
    var i := IndexOf(input, '\n');
    if i == |input| then EndOfStream
    else
      assert input == input[..i] + "\n" + input[i + 1..];
      Line(input[..i], input[i + 1..])
  }

  /** Removing one trailing carriage return, as cmd_parse does. */
  function StripCR(line: string): (r: string)
    ensures line == r || line == r + "\r"
    ensures |r| < |line| <==> line != [] && line[|line| - 1] == '\r'
  {
    if line != [] && line[|line| - 1] == '\r' then
      assert line == line[..|line| - 1] + "\r";
      line[..|line| - 1]
    else line
  }

  /** Only one carriage return is removed: a second one stays in the line. */
  lemma StripCROnce(r: string)
    ensures StripCR(r + "\r\r") == r + "\r"
  {
    assert (r + "\r\r")[..|r| + 1] == r + "\r";
  }
}
