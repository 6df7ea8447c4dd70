/** The tokenizers, wildcard expansion, first-token scan and quote escaping
    of the toolkit's string helpers.  Each imperative helper is a method
    proved against a specification function; the lemmas state what the
    specification functions promise (piece counts, join round trips,
    prefix properties). */
module StringUtil {
  import opened Errors
  import opened Seqs

  // ---------------------------------------------------------------------
  // The C-string view: `c_str()` and `&str[0]` stop at the first NUL.

  /** The characters a `const char *` walk over `s.c_str()` sees. */
  function CStr(s: string): (r: string)
    ensures '\0' !in r
    ensures |r| <= |s| && r == s[..|r|]
    ensures |r| < |s| ==> s[|r|] == '\0'
  {
    s[..FirstSep(s, ['\0'])]
  }

  /** A string without NUL is its own C-string view. */
  lemma CStrNoNul(s: string)
    requires '\0' !in s
    ensures CStr(s) == s
  {
    assert FirstSep(s, ['\0']) == |s|;
  }

  // ---------------------------------------------------------------------
  // Splitting at separator characters.

  /** Number of characters of s that are separators. */
  function CountIn(s: string, seps: seq<char>): nat
  {
    if s == [] then 0 else (if s[0] in seps then 1 else 0) + CountIn(s[1..], seps)
  }

  /** Index of the first separator character of s, or |s| when there is none. */
  function FirstSep(s: string, seps: seq<char>): (k: nat)
    ensures k <= |s|
    ensures forall i :: 0 <= i < k ==> s[i] !in seps
    ensures k < |s| ==> s[k] in seps
  {
    if s == [] then 0 else if s[0] in seps then 0 else 1 + FirstSep(s[1..], seps)
  }

  /** The pieces of s between separator characters, empty pieces kept:
      what `boost::split(ret, s, is_any_of(seps))` returns, and what the
      character tokenizer returns for a non-empty C string. */
  function Split(s: string, seps: seq<char>): (r: seq<string>)
    ensures |r| >= 1
    decreases |s|
  {
    var k := FirstSep(s, seps);
    if k == |s| then [s] else [s[..k]] + Split(s[k + 1..], seps)
  }

  /** `Tokenize(const char *str, c)` on a NUL-free string: nothing for the
      empty string, otherwise the pieces between occurrences of c. */
  function Tokens(s: string, c: char): seq<string>
  {
    if s == "" then [] else Split(s, [c])
  }

  /** The pieces joined with the character c between consecutive ones. */
  function JoinWith(ts: seq<string>, c: char): string
  {
    if |ts| == 0 then "" else if |ts| == 1 then ts[0] else ts[0] + [c] + JoinWith(ts[1..], c)
  }

  lemma {:induction false} CountInAppend(a: string, b: string, seps: seq<char>)
    ensures CountIn(a + b, seps) == CountIn(a, seps) + CountIn(b, seps)
  {
    if a == [] {
      assert a + b == b;
    } else {
      assert (a + b)[1..] == a[1..] + b;
      CountInAppend(a[1..], b, seps);
    }
  }

  lemma {:induction false} CountInNone(s: string, seps: seq<char>)
    requires forall i :: 0 <= i < |s| ==> s[i] !in seps
    ensures CountIn(s, seps) == 0
  {
    if s != [] { CountInNone(s[1..], seps); }
  }

  /** The first separator of s is at k whenever k has the defining properties. */
  lemma {:induction false} FirstSepIs(s: string, seps: seq<char>, k: nat)
    requires k <= |s|
    requires forall i :: 0 <= i < k ==> s[i] !in seps
    requires k < |s| ==> s[k] in seps
    ensures FirstSep(s, seps) == k
    decreases |s|
  {
    if s != [] && k > 0 {
      FirstSepIs(s[1..], seps, k - 1);
    }
  }

  /** The first separator of s is no earlier than k when s[..k] holds none. */
  lemma {:induction false} FirstSepAtLeast(s: string, seps: seq<char>, k: nat)
    requires k <= |s|
    requires forall i :: 0 <= i < k ==> s[i] !in seps
    ensures FirstSep(s, seps) >= k
    decreases |s|
  {
    if s != [] && k > 0 {
      FirstSepAtLeast(s[1..], seps, k - 1);
    }
  }

  /** One step of Split: the piece up to the separator at i (or the end), then the rest. */
  lemma SplitStep(str: string, begin: nat, i: nat, seps: seq<char>)
    requires begin <= i <= |str|
    requires forall j :: begin <= j < i ==> str[j] !in seps
    requires i < |str| ==> str[i] in seps
    ensures Split(str[begin..], seps) ==
              if i == |str| then [str[begin..i]] else [str[begin..i]] + Split(str[i + 1..], seps)
  {
    var rest := str[begin..];
    FirstSepIs(rest, seps, i - begin);
    assert rest[..i - begin] == str[begin..i];
    if i < |str| {
      assert rest[i - begin + 1..] == str[i + 1..];
      assert Split(rest, seps) == [rest[..i - begin]] + Split(rest[i - begin + 1..], seps);
    } else {
      assert rest == str[begin..i];
    }
  }

  /** Split yields one more piece than there are separator characters. */
  lemma {:induction false} SplitCount(s: string, seps: seq<char>)
    ensures |Split(s, seps)| == CountIn(s, seps) + 1
    decreases |s|
  {
    var k := FirstSep(s, seps);
    if k == |s| {
      CountInNone(s, seps);
    } else {
      assert s == s[..k] + s[k..];
      assert s[k..] == [s[k]] + s[k + 1..];
      CountInAppend(s[..k], s[k..], seps);
      CountInNone(s[..k], seps);
      assert CountIn(s[k..], seps) == 1 + CountIn(s[k + 1..], seps) by {
        assert s[k..][1..] == s[k + 1..];
      }
      SplitCount(s[k + 1..], seps);
    }
  }

  /** No piece of Split contains a separator character. */
  lemma {:induction false} SplitNoSeparator(s: string, seps: seq<char>)
    ensures forall i, j :: 0 <= i < |Split(s, seps)| && 0 <= j < |Split(s, seps)[i]| ==>
              Split(s, seps)[i][j] !in seps
    decreases |s|
  {
    var k := FirstSep(s, seps);
    if k < |s| {
      SplitNoSeparator(s[k + 1..], seps);
    }
  }

  /** Joining the pieces of s with c gives s back. */
  lemma {:induction false} SplitJoin(s: string, c: char)
    ensures JoinWith(Split(s, [c]), c) == s
    decreases |s|
  {
    var k := FirstSep(s, [c]);
    var ts := Split(s, [c]);
    if k < |s| {
      var rest := Split(s[k + 1..], [c]);
      SplitJoin(s[k + 1..], c);
      assert ts == [s[..k]] + rest;
      assert |ts| >= 2 && ts[0] == s[..k] && ts[1..] == rest;
      assert JoinWith(ts, c) == s[..k] + [c] + JoinWith(rest, c);
      assert s == s[..k] + [c] + s[k + 1..];
    } else {
      assert ts == [s];
    }
  }

  /** The first separator of `a + [c] + b` is at |a| when a has none and c is one. */
  lemma FirstSepOfJoin(a: string, c: char, b: string, seps: seq<char>)
    requires c in seps
    requires forall j :: 0 <= j < |a| ==> a[j] !in seps
    ensures FirstSep(a + [c] + b, seps) == |a|
  {
    FirstSepIs(a + [c] + b, seps, |a|);
  }

  /** Splitting a join gives the pieces back when no piece holds a separator
      and the joining character is one. */
  lemma {:induction false} JoinSplit(ts: seq<string>, c: char, seps: seq<char>)
    requires |ts| >= 1
    requires c in seps
    requires forall i, j :: 0 <= i < |ts| && 0 <= j < |ts[i]| ==> ts[i][j] !in seps
    ensures Split(JoinWith(ts, c), seps) == ts
    decreases |ts|
  {
    if |ts| == 1 {
      FirstSepIs(ts[0], seps, |ts[0]|);
    } else {
      var rest := JoinWith(ts[1..], c);
      var s := ts[0] + [c] + rest;
      assert JoinWith(ts, c) == s;
      FirstSepOfJoin(ts[0], c, rest, seps);
      assert s[..|ts[0]|] == ts[0];
      assert s[|ts[0]| + 1..] == rest;
      forall i, j | 0 <= i < |ts[1..]| && 0 <= j < |ts[1..][i]| ensures ts[1..][i][j] !in seps {
        assert ts[1..][i] == ts[i + 1];
      }
      JoinSplit(ts[1..], c, seps);
      assert ts == [ts[0]] + ts[1..];
    }
  }

  // ---------------------------------------------------------------------
  // Tokenize(const char *, char) and Tokenize(const std::string &, char).

  /** Walks a NUL-free string with an index as the source walks a pointer. */
  method TokenizeCStr(str: string, c: char) returns (result: seq<string>)
    requires '\0' !in str
    ensures result == Tokens(str, c)
  {
    result := [];
    if |str| == 0 {
      return;
    }
    var i := 0;
    assert str[i..] == str;
    while true
      invariant 0 <= i <= |str|
      invariant result + Split(str[i..], [c]) == Split(str, [c])
      decreases |str| - i
    {
      var begin := i;
      i := ScanTo(str, c, begin);
      ghost var before := result;
      result := result + [str[begin..i]];
      if i == |str| {
        TokenizeLast(str, c, begin, i, before, result);
        break;
      }
      TokenizeNext(str, c, begin, i, before, result);
      i := i + 1;
    }
  }

  /** The inner walk: forward from begin to the next c or the end. */
  method ScanTo(str: string, c: char, begin: nat) returns (i: nat)
    requires begin <= |str|
    ensures begin <= i <= |str| && (i < |str| ==> str[i] == c)
    ensures forall j :: begin <= j < i ==> str[j] != c
  {
    i := begin;
    while i < |str| && str[i] != c
      invariant begin <= i <= |str|
      invariant forall j :: begin <= j < i ==> str[j] != c
    {
      i := i + 1;
    }
  }

  /** The last token of the walk: the piece from begin to the end
      completes the tokens. */
  lemma TokenizeLast(str: string, c: char, begin: nat, i: nat, before: seq<string>, result: seq<string>)
    requires begin <= i == |str|
    requires forall j :: begin <= j < i ==> str[j] != c
    requires before + Split(str[begin..], [c]) == Split(str, [c])
    requires result == before + [str[begin..i]]
    ensures result == Split(str, [c])
  {
    SplitStep(str, begin, i, [c]);
  }

  /** A token ended by the separator at i: the walk goes on after it. */
  lemma TokenizeNext(str: string, c: char, begin: nat, i: nat, before: seq<string>, result: seq<string>)
    requires begin <= i < |str| && str[i] == c
    requires forall j :: begin <= j < i ==> str[j] != c
    requires before + Split(str[begin..], [c]) == Split(str, [c])
    requires result == before + [str[begin..i]]
    ensures result + Split(str[i + 1..], [c]) == Split(str, [c])
  {
    SplitStep(str, begin, i, [c]);
    AppendAssoc(before, [str[begin..i]], Split(str[i + 1..], [c]));
  }

  /** The std::string overload forwards `str.c_str()`, so an embedded NUL ends the input. */
  method Tokenize(str: string, c: char) returns (result: seq<string>)
    ensures result == Tokens(CStr(str), c)
  {
    result := TokenizeCStr(CStr(str), c);
  }

  // ---------------------------------------------------------------------
  // Tokenize(const std::string &, const std::string & delim).

  /** d occurs in s at index j. */
  predicate OccursAt(s: string, d: string, j: nat)
  {
    j + |d| <= |s| && s[j..j + |d|] == d
  }

  /** `s.find(d, from)`: the leftmost occurrence of d at or after from. */
  function FindFrom(s: string, d: string, from: nat): (r: Option<nat>)
    requires from <= |s|
    ensures r.Some? ==> from <= r.value && OccursAt(s, d, r.value)
    ensures r.Some? ==> forall j :: from <= j < r.value ==> !OccursAt(s, d, j)
    ensures r.None? ==> forall j :: from <= j <= |s| ==> !OccursAt(s, d, j)
    decreases |s| - from
  {
    if from + |d| > |s| then None
    else if s[from..from + |d|] == d then Some(from)
    else FindFrom(s, d, from + 1)
  }

  /** The pieces of s from index prev on, cut at the leftmost non-overlapping
      occurrences of d. */
  function Pieces(s: string, d: string, prev: nat): (r: seq<string>)
    requires |d| > 0 && prev <= |s|
    ensures |r| >= 1
    decreases |s| - prev
  {
    match FindFrom(s, d, prev)
    case None => [s[prev..]]
    case Some(loc) => [s[prev..loc]] + Pieces(s, d, loc + |d|)
  }

  /** The string-delimiter tokenizer: nothing for the empty string, otherwise
      the pieces between leftmost non-overlapping occurrences of delim. */
  function DelimTokens(s: string, delim: string): seq<string>
    requires s == "" || |delim| > 0
  {
    if s == "" then [] else Pieces(s, delim, 0)
  }

  /** The pieces joined with the string d between consecutive ones. */
  function JoinDelim(ts: seq<string>, d: string): string
  {
    if |ts| == 0 then "" else if |ts| == 1 then ts[0] else ts[0] + d + JoinDelim(ts[1..], d)
  }

  /** An empty delimiter makes the source loop forever, so a non-empty input
      needs a non-empty delimiter. */
  method TokenizeDelim(str: string, delim: string) returns (vec: seq<string>)
    requires str == "" || |delim| > 0
    ensures vec == DelimTokens(str, delim)
  {
    vec := [];
    if str == "" {
      return;
    }
    var prev := 0;
    var found := FindFrom(str, delim, prev);
    while found.Some?
      invariant prev <= |str|
      invariant found == FindFrom(str, delim, prev)
      invariant vec + Pieces(str, delim, prev) == Pieces(str, delim, 0)
      decreases |str| - prev
    {
      var loc := found.value;
      ghost var before := vec;
      vec := vec + [str[prev..loc]];
      PiecesNext(str, delim, prev, loc, before, vec);
      prev := loc + |delim|;
      found := FindFrom(str, delim, prev);
    }
    ghost var before := vec;
    vec := vec + [str[prev..]];
    PiecesLast(str, delim, prev, before, vec);
  }

  /** A piece cut at the occurrence at loc: the walk goes on after it. */
  lemma PiecesNext(s: string, d: string, prev: nat, loc: nat, before: seq<string>, vec: seq<string>)
    requires |d| > 0 && prev <= |s| && FindFrom(s, d, prev) == Some(loc)
    requires before + Pieces(s, d, prev) == Pieces(s, d, 0)
    requires vec == before + [s[prev..loc]]
    ensures loc + |d| <= |s|
    ensures vec + Pieces(s, d, loc + |d|) == Pieces(s, d, 0)
  {
    assert Pieces(s, d, prev) == [s[prev..loc]] + Pieces(s, d, loc + |d|);
    AppendAssoc(before, [s[prev..loc]], Pieces(s, d, loc + |d|));
  }

  /** The last piece: no occurrence from prev on, so the rest completes them. */
  lemma PiecesLast(s: string, d: string, prev: nat, before: seq<string>, vec: seq<string>)
    requires |d| > 0 && prev <= |s| && FindFrom(s, d, prev).None?
    requires before + Pieces(s, d, prev) == Pieces(s, d, 0)
    requires vec == before + [s[prev..]]
    ensures vec == Pieces(s, d, 0)
  {
    assert Pieces(s, d, prev) == [s[prev..]];
  }

  /** Joining the pieces with the delimiter gives back the input from prev on. */
  lemma {:induction false} PiecesJoin(s: string, d: string, prev: nat)
    requires |d| > 0 && prev <= |s|
    ensures JoinDelim(Pieces(s, d, prev), d) == s[prev..]
    decreases |s| - prev
  {
    match FindFrom(s, d, prev)
    case None =>
    case Some(loc) =>
      var next := loc + |d|;
      PiecesJoin(s, d, next);
      var ps := Pieces(s, d, prev);
      assert ps == [s[prev..loc]] + Pieces(s, d, next);
      assert ps[1..] == Pieces(s, d, next);
      assert JoinDelim(ps, d) == s[prev..loc] + d + s[next..];
      assert s[loc..next] == d;
      assert s[prev..] == s[prev..loc] + s[loc..next] + s[next..];
  }

  /** No piece contains the delimiter: every cut is at the leftmost occurrence. */
  lemma {:induction false} PiecesNoDelim(s: string, d: string, prev: nat)
    requires |d| > 0 && prev <= |s|
    ensures forall i, j :: 0 <= i < |Pieces(s, d, prev)| && 0 <= j <= |Pieces(s, d, prev)[i]| ==>
              !OccursAt(Pieces(s, d, prev)[i], d, j)
    decreases |s| - prev
  {
    var ps := Pieces(s, d, prev);
    var r := FindFrom(s, d, prev);
    var end := if r.Some? then r.value else |s|;
    forall j | 0 <= j <= |ps[0]| ensures !OccursAt(ps[0], d, j) {
      if OccursAt(ps[0], d, j) {
        assert ps[0] == s[prev..end];
        assert ps[0][j..j + |d|] == s[prev + j..prev + j + |d|];
        assert OccursAt(s, d, prev + j);
        assert false;
      }
    }
    if r.Some? {
      PiecesNoDelim(s, d, r.value + |d|);
      assert ps[1..] == Pieces(s, d, r.value + |d|);
    }
  }

  /** For a one-character delimiter the leftmost occurrence is the first separator. */
  lemma {:induction false} FindFromSingle(s: string, c: char, from: nat)
    requires from <= |s|
    ensures var k := FirstSep(s[from..], [c]);
            FindFrom(s, [c], from) == if from + k < |s| then Some(from + k) else None
  {
    var k := FirstSep(s[from..], [c]);
    var r := FindFrom(s, [c], from);
    if r.Some? {
      assert s[r.value..r.value + 1] == [c];
      assert s[from..][r.value - from] == c;
      forall j | 0 <= j < r.value - from ensures s[from..][j] != c {
        assert !OccursAt(s, [c], from + j);
        assert s[from + j..from + j + 1] == [s[from + j]];
      }
      FirstSepIs(s[from..], [c], r.value - from);
    } else {
      forall j | 0 <= j < |s| - from ensures s[from..][j] != c {
        assert !OccursAt(s, [c], from + j);
        assert s[from + j..from + j + 1] == [s[from + j]];
      }
      FirstSepIs(s[from..], [c], |s| - from);
    }
  }

  /** With a one-character delimiter both tokenizers split alike. */
  lemma {:induction false} PiecesSingleChar(s: string, c: char, prev: nat)
    requires prev <= |s|
    ensures Pieces(s, [c], prev) == Split(s[prev..], [c])
    decreases |s| - prev
  {
    FindFromSingle(s, c, prev);
    var k := FirstSep(s[prev..], [c]);
    forall j | prev <= j < prev + k ensures s[j] !in [c] {
      assert s[j] == s[prev..][j - prev];
    }
    if prev + k < |s| {
      assert s[prev + k] == s[prev..][k];
      SplitStep(s, prev, prev + k, [c]);
      PiecesSingleChar(s, c, prev + k + 1);
    } else {
      SplitStep(s, prev, |s|, [c]);
    }
  }

  /** The string-delimiter tokenizer with a one-character delimiter agrees with
      the character tokenizer, so it yields (occurrences of c) + 1 pieces. */
  lemma DelimTokensSingleChar(s: string, c: char)
    requires '\0' !in s
    ensures DelimTokens(s, [c]) == Tokens(s, c)
    ensures s != "" ==> |DelimTokens(s, [c])| == CountIn(s, [c]) + 1
  {
    if s != "" {
      PiecesSingleChar(s, c, 0);
      assert s[0..] == s;
      SplitCount(s, [c]);
    }
  }

  // ---------------------------------------------------------------------
  // FirstToken.

  /** Advances from the start of s until a NUL or c; the longest prefix of
      the C string with no c, and the first character token. */
  method FirstToken(str: string, c: char) returns (tok: string)
    ensures |tok| <= |str| && tok == str[..|tok|]
    ensures '\0' !in tok && c !in tok
    ensures |tok| < |str| ==> str[|tok|] == '\0' || str[|tok|] == c
    ensures CStr(str) != "" ==> tok == Tokens(CStr(str), c)[0]
  {
    var i := 0;
    while i < |str| && str[i] != '\0' && str[i] != c
      invariant 0 <= i <= |str|
      invariant forall j :: 0 <= j < i ==> str[j] != '\0' && str[j] != c
    {
      i := i + 1;
    }
    tok := str[..i];
    var cs := CStr(str);
    FirstSepAtLeast(str, ['\0'], i);
    FirstSepIs(cs, [c], i);
    assert cs[..i] == tok;
  }

  // ---------------------------------------------------------------------
  // TokenizeWildcarded.

  /** The file names a pattern stands for: the first "WILD" of str replaced
      by every wildcard in turn; without a "WILD", str split at every
      character of delimiter. */
  function Wildcarded(str: string, wildcards: seq<string>, delimiter: string): seq<string>
  {
    match FindFrom(str, "WILD", 0)
    case Some(e) => seq(|wildcards|, i requires 0 <= i < |wildcards| => str[..e] + wildcards[i] + str[e + 4..])
    case None => Split(str, delimiter)
  }

  /** Without a "WILD" there is always at least one name, even for the empty
      pattern; with one, there are as many names as wildcards. */
  lemma WildcardedCount(str: string, wildcards: seq<string>, delimiter: string)
    ensures FindFrom(str, "WILD", 0).None? ==> |Wildcarded(str, wildcards, delimiter)| >= 1
    ensures FindFrom(str, "WILD", 0).Some? ==> |Wildcarded(str, wildcards, delimiter)| == |wildcards|
    ensures Wildcarded("", wildcards, delimiter) == [""]
  {
    assert FindFrom("", "WILD", 0).None?;
    assert Split("", delimiter) == [""];
  }

  /** Expands the first "WILD" of str with every wildcard in turn; without a
      "WILD", splits str at every character of delimiter. */
  method TokenizeWildcarded(str: string, wildcards: seq<string>, delimiter: string)
    returns (ret: seq<string>)
    ensures ret == Wildcarded(str, wildcards, delimiter)
    ensures FindFrom(str, "WILD", 0).Some? ==>
              var e := FindFrom(str, "WILD", 0).value;
              && |ret| == |wildcards|
              && (forall i :: 0 <= i < |ret| ==> ret[i] == str[..e] + wildcards[i] + str[e + 4..])
              && (forall j :: 0 <= j < e ==> !OccursAt(str, "WILD", j))
    ensures FindFrom(str, "WILD", 0).None? ==> ret == Split(str, delimiter)
  {
    ret := [];
    var end := FindFrom(str, "WILD", 0);
    if end.Some? {
      var left := str[..end.value];
      var right := str[end.value + 4..];
      for i := 0 to |wildcards|
        invariant |ret| == i
        invariant forall k :: 0 <= k < i ==> ret[k] == left + wildcards[k] + right
      {
        ret := ret + [left + wildcards[i] + right];
      }
    } else {
      ret := Split(str, delimiter);
    }
  }

  // ---------------------------------------------------------------------
  // EscapeQuotes.

  /** `boost::replace_all` with a one-character pattern. */
  function ReplaceChar(s: string, ch: char, rep: string): string
  {
    if s == [] then [] else (if s[0] == ch then rep else [s[0]]) + ReplaceChar(s[1..], ch, rep)
  }

  /** The escape of one character: a backslash or a quote gets a backslash before it. */
  function EscapeChar(ch: char): string
  {
    if ch == '\\' then "\\\\" else if ch == '"' then "\\\"" else [ch]
  }

  /** Character-by-character reference definition of the escaping. */
  function Escaped(s: string): string
  {
    if s == [] then [] else EscapeChar(s[0]) + Escaped(s[1..])
  }

  /** Inverse of the escaping; None for text no escaping can produce. */
  function Unescape(s: string): Option<string>
  {
    if s == [] then Some([])
    else if s[0] == '\\' then
      if |s| >= 2 && (s[1] == '\\' || s[1] == '"') then
        match Unescape(s[2..])
        case None => None
        case Some(rest) => Some([s[1]] + rest)
      else None
    else if s[0] == '"' then None
    else
      match Unescape(s[1..])
      case None => None
      case Some(rest) => Some([s[0]] + rest)
  }

  lemma {:induction false} ReplaceCharAppend(a: string, b: string, ch: char, rep: string)
    ensures ReplaceChar(a + b, ch, rep) == ReplaceChar(a, ch, rep) + ReplaceChar(b, ch, rep)
  {
    if a == [] {
      assert a + b == b;
    } else {
      assert (a + b)[1..] == a[1..] + b;
      ReplaceCharAppend(a[1..], b, ch, rep);
    }
  }

  /** Doubling the backslashes and then escaping the quotes escapes every
      character on its own. */
  lemma {:induction false} EscapeTwoPasses(s: string)
    ensures ReplaceChar(ReplaceChar(s, '\\', "\\\\"), '"', "\\\"") == Escaped(s)
  {
    if s != [] {
      var first := if s[0] == '\\' then "\\\\" else [s[0]];
      assert ReplaceChar(s, '\\', "\\\\") == first + ReplaceChar(s[1..], '\\', "\\\\");
      ReplaceCharAppend(first, ReplaceChar(s[1..], '\\', "\\\\"), '"', "\\\"");
      EscapeTwoPasses(s[1..]);
      if s[0] == '\\' {
        assert ReplaceChar(first, '"', "\\\"") == "\\\\" by {
          assert first == ['\\'] + ['\\'];
          ReplaceCharAppend(['\\'], ['\\'], '"', "\\\"");
        }
      } else {
        assert ReplaceChar(first, '"', "\\\"") == EscapeChar(s[0]);
      }
    }
  }

  lemma {:induction false} EscapedLength(s: string)
    ensures |Escaped(s)| == |s| + CountIn(s, ['\\']) + CountIn(s, ['"'])
  {
    if s != [] { EscapedLength(s[1..]); }
  }

  lemma {:induction false} UnescapeEscaped(s: string)
    ensures Unescape(Escaped(s)) == Some(s)
  {
    if s != [] {
      UnescapeEscaped(s[1..]);
      var e := Escaped(s);
      var tail := Escaped(s[1..]);
      if s[0] == '\\' || s[0] == '"' {
        assert e == [ '\\', s[0]] + tail;
        assert e[2..] == tail;
      } else {
        assert e == [s[0]] + tail;
        assert e[1..] == tail;
      }
      assert s == [s[0]] + s[1..];
    }
  }

  /** Doubles every backslash, then puts a backslash before every quote. */
  method EscapeQuotes(s: string) returns (ret: string)
    ensures ret == Escaped(s)
    ensures |ret| == |s| + CountIn(s, ['\\']) + CountIn(s, ['"'])
    ensures Unescape(ret) == Some(s)
  {
    ret := s;
    ret := ReplaceChar(ret, '\\', "\\\\");
    ret := ReplaceChar(ret, '"', "\\\"");
    EscapeTwoPasses(s);
    EscapedLength(s);
    UnescapeEscaped(s);
  }

  // ---------------------------------------------------------------------
  // `std::string::substr`.

  /** `s.substr(pos, n)`: at most n characters from pos; pos past the end
      throws out_of_range, which callers here never reach (pos is 0 or
      checked). */
  function Substr(s: string, pos: nat, n: nat): (r: string)
    requires pos <= |s|
    ensures |r| == if pos + n <= |s| then n else |s| - pos
    ensures r <= s[pos..]
  {
    if pos + n <= |s| then s[pos..pos + n] else s[pos..]
  }

  /** Comparing `s.substr(0, |p|)` with p tests exactly whether p is a prefix
      of s; in particular a string shorter than p never matches. */
  lemma SubstrPrefix(s: string, p: string)
    ensures Substr(s, 0, |p|) == p <==> p <= s
  {
    if p <= s {
      assert s[0..|p|] == p;
    }
  }
}
