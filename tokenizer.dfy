/** The command-line tokenizer `parseCmd`: it strips leading spaces and cuts
    the line at each space, keeping the tokens in order. */
module Tokenizer {

  /** Pushed when the line holds nothing at all. */
  const Sentinel: string := "empty"

  /** The line with its leading spaces removed (the inner `while(cmd[0] == ' ')`). */
  function StripLeading(s: string): (r: string)
    ensures |r| <= |s|
    ensures r == [] || r[0] != ' '
  {
    if |s| > 0 && s[0] == ' ' then StripLeading(s[1..]) else s
  }

  /** What is stripped is a run of spaces, and what is left is the rest of the line. */
  lemma {:induction false} StripLeadingSuffix(s: string)
    ensures StripLeading(s) == s[|s| - |StripLeading(s)|..]
    ensures forall i :: 0 <= i < |s| - |StripLeading(s)| ==> s[i] == ' '
  {
    if |s| > 0 && s[0] == ' ' {
      StripLeadingSuffix(s[1..]);
    }
  }

  /** `std::string::find(c)` read back through an `int`: the index of the
      first `c` in `s`, or -1 (npos) when there is none. */
  function Find(s: string, c: char): (r: int)
    ensures -1 <= r < |s|
    ensures r == -1 <==> c !in s
    ensures r >= 0 ==> s[r] == c && c !in s[..r]
  {
    if |s| == 0 then -1
    else if s[0] == c then 0
    else
      var k := Find(s[1..], c);
      if k == -1 then -1
      else
        assert s[..k + 1] == [s[0]] + s[1..][..k];
        k + 1
  }

  /** The tokens the outer loop of `parseCmd` pushes from `cmd` onwards. */
  function Split(cmd: string): seq<string>
    decreases |cmd|
  {
    if |cmd| == 0 then []
    else
      var t := StripLeading(cmd);
      var del := Find(t, ' ');
      if del > -1 then [t[..del]] + Split(t[del + 1..])
      else [t]
  }

  /** The result of `parseCmd(line)`: never empty. */
  function Tokens(line: string): (r: seq<string>)
    ensures r != []
    ensures line == [] ==> r == [Sentinel]
  {
    var found := Split(line);
    if found == [] then [Sentinel] else found
  }

  /** `parseCmd`: the loop of lines 75-94 followed by the sentinel of 96-99. */
  method ParseCmd(line: string) returns (temp: seq<string>)
    ensures temp == Tokens(line)
  {
    var cmd := line;
    temp := [];
    while |cmd| > 0
      invariant temp + Split(cmd) == Split(line)
      decreases |cmd|
    {
      ghost var entry := cmd;
      // `cmd[0]` of an empty std::string reads its terminating NUL, which ends this loop.
      while |cmd| > 0 && cmd[0] == ' '
        invariant StripLeading(cmd) == StripLeading(entry)
        decreases |cmd|
      {
        cmd := cmd[1..];
      }
      assert cmd == StripLeading(entry);
      var del := Find(cmd, ' ');
      if del > -1 {
        temp := temp + [cmd[..del]];
        cmd := cmd[del + 1..];
      } else {
        temp := temp + [cmd];
        assert temp == Split(line);
        break;
      }
    }
    if temp == [] {
      temp := [Sentinel];
    }
  }

  /** No token contains a space. */
  lemma {:induction false} NoSpaceInSplit(cmd: string)
    ensures forall k :: 0 <= k < |Split(cmd)| ==> ' ' !in Split(cmd)[k]
    decreases |cmd|
  {
    if |cmd| > 0 {
      var t := StripLeading(cmd);
      var del := Find(t, ' ');
      if del > -1 {
        NoSpaceInSplit(t[del + 1..]);
      }
    }
  }

  lemma NoSpaceInTokens(line: string)
    ensures forall k :: 0 <= k < |Tokens(line)| ==> ' ' !in Tokens(line)[k]
  {
    NoSpaceInSplit(line);
  }

  /** A line of spaces only yields one empty token, not the sentinel. */
  lemma BlankLine(line: string)
    requires |line| > 0
    requires forall i :: 0 <= i < |line| ==> line[i] == ' '
    ensures Tokens(line) == [""]
  {
    StripLeadingSuffix(line);
  }

  /** Two or more trailing spaces leave a final empty token. */
  lemma {:induction false} TrailingSpacesSplit(cmd: string)
    requires |cmd| >= 2 && cmd[|cmd| - 1] == ' ' && cmd[|cmd| - 2] == ' '
    ensures Split(cmd) != [] && Split(cmd)[|Split(cmd)| - 1] == ""
    decreases |cmd|
  {
    StripLeadingSuffix(cmd);
    var t := StripLeading(cmd);
    if t != [] {
      var n := |cmd| - |t|;
      assert t[|t| - 1] == cmd[|cmd| - 1];
      var del := Find(t, ' ');
      assert 0 < del;
      var rest := t[del + 1..];
      assert Split(cmd) == [t[..del]] + Split(rest);
      if |rest| >= 2 {
        assert rest[|rest| - 1] == cmd[|cmd| - 1];
        assert rest[|rest| - 2] == cmd[|cmd| - 2];
        TrailingSpacesSplit(rest);
      } else if |rest| == 1 {
        assert rest[0] == cmd[|cmd| - 1];
        assert StripLeading(rest) == StripLeading(rest[1..]);
        assert Split(rest) == [""];
      } else {
        assert false;
      }
    }
  }

  /** A line that ends in two spaces tokenizes with an empty last token. */
  lemma TrailingSpacesGiveEmptyToken(cmd: string)
    requires |cmd| >= 2 && cmd[|cmd| - 1] == ' ' && cmd[|cmd| - 2] == ' '
    ensures Tokens(cmd)[|Tokens(cmd)| - 1] == ""
  {
    TrailingSpacesSplit(cmd);
  }

  /** A non-empty token without spaces. */
  predicate IsWord(w: string) {
    |w| > 0 && ' ' !in w
  }

  /** The words joined back with single spaces. */
  function Join(words: seq<string>): string
    requires |words| >= 1
  {
    if |words| == 1 then words[0] else words[0] + " " + Join(words[1..])
  }

  /** A line made of words separated by single spaces, with no space in front
      or at the end. */
  predicate SingleSpaced(s: string) {
    |s| > 0 && s[0] != ' ' && s[|s| - 1] != ' ' &&
    forall i :: 0 <= i < |s| - 1 && s[i] == ' ' ==> s[i + 1] != ' '
  }

  /** `Find` returns the first occurrence. */
  lemma FindFirst(s: string, c: char, i: int)
    requires 0 <= i < |s| && s[i] == c && c !in s[..i]
    ensures Find(s, c) == i
  {
  }

  /** A word followed by a space is cut off as the first token. */
  lemma SplitWordThen(w: string, rest: string)
    requires IsWord(w)
    ensures Split(w + " " + rest) == [w] + Split(rest)
  {
    var line := w + " " + rest;
    assert line[0] == w[0];
    assert StripLeading(line) == line;
    assert line[..|w|] == w;
    FindFirst(line, ' ', |w|);
    assert line[|w| + 1..] == rest;
  }

  /** A lone word is one token. */
  lemma SplitWord(w: string)
    requires IsWord(w)
    ensures Split(w) == [w]
  {
    assert StripLeading(w) == w;
  }

  /** Splitting joined words gives the words back. */
  lemma {:induction false} SplitJoin(words: seq<string>)
    requires |words| >= 1
    requires forall k :: 0 <= k < |words| ==> IsWord(words[k])
    ensures Tokens(Join(words)) == words
    decreases |words|
  {
    assert IsWord(words[0]);
    if |words| == 1 {
      SplitWord(words[0]);
    } else {
      SplitJoin(words[1..]);
      SplitWordThen(words[0], Join(words[1..]));
    }
  }

  /** For a single-spaced line every token is a word and joining the tokens
      gives the line back. */
  lemma {:induction false} JoinSplit(line: string)
    requires SingleSpaced(line)
    ensures forall k :: 0 <= k < |Tokens(line)| ==> IsWord(Tokens(line)[k])
    ensures Join(Tokens(line)) == line
    decreases |line|
  {
    assert StripLeading(line) == line;
    var del := Find(line, ' ');
    if del == -1 {
      assert Tokens(line) == [line];
    } else {
      assert 0 < del < |line| - 1;
      var first := line[..del];
      var rest := line[del + 1..];
      assert SingleSpaced(rest) by {
        assert rest[0] == line[del + 1];
        assert rest[|rest| - 1] == line[|line| - 1];
        forall i | 0 <= i < |rest| - 1 && rest[i] == ' '
          ensures rest[i + 1] != ' '
        {
          assert rest[i] == line[del + 1 + i];
          assert rest[i + 1] == line[del + 2 + i];
        }
      }
      JoinSplit(rest);
      var tail := Tokens(rest);
      assert tail == Split(rest);
      assert Tokens(line) == [first] + tail;
      assert IsWord(first);
      assert Join(Tokens(line)) == first + " " + Join(tail);
      assert line == first + " " + rest;
    }
  }

  /** The aliases registered for the give command. */
  lemma GiveAliases()
    ensures Tokens("igive i") == ["igive", "i"]
  {
    SplitJoin(["igive", "i"]);
    assert Join(["igive", "i"]) == "igive i";
  }
}
