/**
 * Tchap's string utilities: capitalising names, deriving a Matrix ID
 * localpart from an e-mail address, and deriving a display name
 * `Name [Organisation]` from an e-mail address.
 */
module Tchap {
  import opened Text

  /** `char::is_whitespace`: the Unicode `White_Space` property. */
  predicate IsWhitespace(c: char)
  {
    c == ' ' || ('\t' <= c <= '\r') || c == '\U{0085}' || c == '\U{00A0}' || c == '\U{1680}'
    || ('\U{2000}' <= c <= '\U{200A}') || c == '\U{2028}' || c == '\U{2029}'
    || c == '\U{202F}' || c == '\U{205F}' || c == '\U{3000}'
  }

  /** Upper-casing, restricted to ASCII letters. */
  function Upper(c: char): char
  {
    if 'a' <= c <= 'z' then (c as int - 32) as char else c
  }

  /** Lower-casing, restricted to ASCII letters. */
  function Lower(c: char): char
  {
    if 'A' <= c <= 'Z' then (c as int + 32) as char else c
  }

  /** Whitespace becomes a plain space; everything else is kept. */
  function Blank(c: char): char
  {
    if IsWhitespace(c) then ' ' else c
  }

  function NonEmptyParts(ps: seq<string>): (r: seq<string>)
    ensures forall i :: 0 <= i < |r| ==> r[i] != ""
  {
    if ps == [] then [] else (if ps[0] == "" then [] else [ps[0]]) + NonEmptyParts(ps[1..])
  }

  /** `s.split_whitespace()`: the non-empty runs of non-whitespace characters. */
  function SplitWhitespace(s: string): seq<string>
  {
    NonEmptyParts(Split(MapChars(s, Blank), ' '))
  }

  /** One hyphen-separated part with its first character upper-cased. */
  function CapPart(part: string): string
  {
    if part == "" then "" else [Upper(part[0])] + part[1..]
  }

  function CapParts(ps: seq<string>): (r: seq<string>)
    ensures |r| == |ps|
    ensures forall i :: 0 <= i < |ps| ==> r[i] == CapPart(ps[i])
  {
    seq(|ps|, i requires 0 <= i < |ps| => CapPart(ps[i]))
  }

  /** One whitespace-separated word: its hyphen-separated parts capitalised and rejoined by `-`. */
  function CapWord(w: string): string
  {
    Join(CapParts(Split(w, '-')), "-")
  }

  function CapWords(ws: seq<string>): (r: seq<string>)
    ensures |r| == |ws|
    ensures forall i :: 0 <= i < |ws| ==> r[i] == CapWord(ws[i])
  {
    seq(|ws|, i requires 0 <= i < |ws| => CapWord(ws[i]))
  }

  /** `cap`: every word capitalised part by part, the words rejoined by single spaces. */
  function Cap(name: string): string
  {
    if name == "" then "" else Join(CapWords(SplitWhitespace(name)), " ")
  }

  /** The characters that may appear in a Matrix ID localpart built here. */
  const AllowedLocalpartChars: string := "abcdefghijklmnopqrstuvwxyz0123456789_-./="

  predicate AllowedInLocalpart(c: char)
  {
    c in AllowedLocalpartChars
  }

  function Lowercase(s: string): (r: string)
    ensures |r| == |s|
  {
    MapChars(s, Lower)
  }

  /**
   * `email_to_mxid_localpart`: `@` becomes `-`, the address is lower-cased,
   * and every character outside the allowed set is dropped.
   */
  function EmailToMxidLocalpart(address: string): (r: string)
    ensures All(r, AllowedInLocalpart)
    ensures |r| <= |address|
  {
    Filter(Lowercase(ReplaceChar(address, '@', '-')), AllowedInLocalpart)
  }

  /** The localpart is built character by character: it distributes over concatenation. */
  lemma LocalpartAppend(a: string, b: string)
    ensures EmailToMxidLocalpart(a + b) == EmailToMxidLocalpart(a) + EmailToMxidLocalpart(b)
  {
    var ra, rb := ReplaceChar(a, '@', '-'), ReplaceChar(b, '@', '-');
    assert ReplaceChar(a + b, '@', '-') == ra + rb;
    assert Lowercase(ra + rb) == Lowercase(ra) + Lowercase(rb);
    FilterAppend(Lowercase(ra), Lowercase(rb), AllowedInLocalpart);
  }

  /** What one character becomes: `@` turns into `-`; any other is lower-cased and kept only if allowed. */
  lemma LocalpartChar(c: char)
    ensures EmailToMxidLocalpart([c]) ==
      if c == '@' then "-" else if AllowedInLocalpart(Lower(c)) then [Lower(c)] else ""
  {
    var l := Lowercase(ReplaceChar([c], '@', '-'));
    assert l == [Lower(if c == '@' then '-' else c)];
    assert l[1..] == [];
    assert AllowedInLocalpart('-') by { assert AllowedLocalpartChars[37] == '-'; }
  }

  /** The organisation label chosen from the dot-separated labels of the domain. */
  function Org(labels: seq<string>): string
  {
    var n := |labels|;
    if n >= 2 && labels[n - 2] == "matrix" && labels[n - 1] == "org" then "Tchap Admin"
    else if n >= 2 && labels[n - 2] == "gouv" && labels[n - 1] == "fr" then
      (if n > 2 then labels[n - 3] else "gouv")
    else if n >= 2 then labels[n - 2]
    else ""
  }

  /**
   * `email_to_display_name`: nothing unless the address has exactly one
   * `@`; otherwise the local part with dots as spaces, capitalised, then the
   * capitalised organisation in brackets.
   */
  function EmailToDisplayName(address: string): (r: string)
    ensures r == "" <==> Count(address, '@') != 1
  {
    var parts := Split(address, '@');
    SplitShape(address, '@');
    if |parts| != 2 then ""
    else Cap(ReplaceChar(parts[0], '.', ' ')) + " [" + Cap(Org(Split(parts[1], '.'))) + "]"
  }

  // ---------------------------------------------------------------------
  // cap

  /** Reference reading of one word: a character is upper-cased when it opens the word or follows `-`. */
  function CapAfter(w: string, atStart: bool): string
  {
    if w == [] then [] else [if atStart then Upper(w[0]) else w[0]] + CapAfter(w[1..], w[0] == '-')
  }

  lemma {:induction false} CapAfterIndex(w: string, atStart: bool)
    ensures |CapAfter(w, atStart)| == |w|
    ensures forall i :: 0 <= i < |w| ==>
      CapAfter(w, atStart)[i] == (if (i == 0 && atStart) || (i > 0 && w[i - 1] == '-') then Upper(w[i]) else w[i])
  {
    if w != [] {
      CapAfterIndex(w[1..], w[0] == '-');
      var r := CapAfter(w, atStart);
      forall i | 0 < i < |w|
        ensures r[i] == (if w[i - 1] == '-' then Upper(w[i]) else w[i])
      {
        assert r[i] == CapAfter(w[1..], w[0] == '-')[i - 1];
        assert w[1..][i - 1] == w[i];
        if i > 1 {
          assert w[1..][i - 2] == w[i - 1];
        }
      }
    }
  }

  /** The `i`-th character of a capitalised word: upper-cased at the start and after a hyphen. */
  function CapAt(w: string, i: int): char
    requires 0 <= i < |w|
  {
    if i == 0 || w[i - 1] == '-' then Upper(w[i]) else w[i]
  }

  /** The parts joined by `-`, each capitalised except perhaps the first. */
  function JoinCap(ps: seq<string>, capFirst: bool): string
    requires |ps| >= 1
  {
    Join([if capFirst then CapPart(ps[0]) else ps[0]] + CapParts(ps[1..]), "-")
  }

  lemma JoinConsChar(c: char, p: string, ps: seq<string>, sep: string)
    ensures Join([[c] + p] + ps, sep) == [c] + Join([p] + ps, sep)
  {
    if |ps| > 0 {
      assert ([[c] + p] + ps)[1..] == ps;
      assert ([p] + ps)[1..] == ps;
    }
  }

  lemma {:induction false} JoinCapSplit(w: string, atStart: bool)
    ensures JoinCap(Split(w, '-'), atStart) == CapAfter(w, atStart)
  {
    if w != [] {
      var rest := Split(w[1..], '-');
      if w[0] == '-' {
        JoinCapSplit(w[1..], true);
        var ps := Split(w, '-');
        assert ps == [""] + rest;
        assert ps[1..] == rest;
        var capped := CapParts(rest);
        assert capped == [CapPart(rest[0])] + CapParts(rest[1..]);
        assert JoinCap(ps, atStart) == Join([""] + capped, "-");
        assert Join([""] + capped, "-") == "" + "-" + Join(capped, "-");
      } else {
        JoinCapSplit(w[1..], false);
        var ps := Split(w, '-');
        assert ps == [[w[0]] + rest[0]] + rest[1..];
        assert ps[1..] == rest[1..];
        var head := if atStart then Upper(w[0]) else w[0];
        if atStart {
          assert CapPart(ps[0]) == [head] + rest[0];
        }
        JoinConsChar(head, rest[0], CapParts(rest[1..]), "-");
      }
    }
  }

  /**
   * Within one word, `cap` keeps every character and the length, and
   * upper-cases exactly the first character and each character following a
   * hyphen: parts between hyphens, empty ones included, stay in place.
   */
  lemma CapWordSpec(w: string)
    ensures |CapWord(w)| == |w|
    ensures forall i :: 0 <= i < |w| ==> CapWord(w)[i] == CapAt(w, i)
  {
    var ps := Split(w, '-');
    assert CapParts(ps) == [CapPart(ps[0])] + CapParts(ps[1..]);
    JoinCapSplit(w, true);
    CapAfterIndex(w, true);
  }

  /** The words `split_whitespace` yields are non-empty and hold no whitespace. */
  lemma SplitWhitespaceWords(s: string)
    ensures forall i :: 0 <= i < |SplitWhitespace(s)| ==> SplitWhitespace(s)[i] != ""
    ensures forall i :: 0 <= i < |SplitWhitespace(s)| ==> All(SplitWhitespace(s)[i], c => !IsWhitespace(c))
  {
    var m := MapChars(s, Blank);
    var ps := Split(m, ' ');
    SplitShape(m, ' ');
    JoinSplit(m, ' ');
    forall k | 0 <= k < |ps| ensures All(ps[k], c => !IsWhitespace(c)) {
      JoinHoldsPart(ps, " ", k);
      var off := PartOffset(ps, " ", k);
      forall j | 0 <= j < |ps[k]| ensures !IsWhitespace(ps[k][j]) {
        assert ps[k][j] == m[off + j];
        assert ps[k][j] != ' ';
      }
    }
    NonEmptyPartsFrom(ps, c => !IsWhitespace(c));
  }

  lemma {:induction false} NonEmptyPartsFrom(ps: seq<string>, p: char -> bool)
    requires forall k :: 0 <= k < |ps| ==> All(ps[k], p)
    ensures forall i :: 0 <= i < |NonEmptyParts(ps)| ==> All(NonEmptyParts(ps)[i], p)
  {
    if ps != [] {
      NonEmptyPartsFrom(ps[1..], p);
    }
  }

  lemma {:induction false} NonEmptyPartsKeep(ps: seq<string>)
    requires forall i :: 0 <= i < |ps| ==> ps[i] != ""
    ensures NonEmptyParts(ps) == ps
  {
    if ps != [] {
      NonEmptyPartsKeep(ps[1..]);
      assert ps == [ps[0]] + ps[1..];
    }
  }

  /** A join of parts and separators satisfying `p` satisfies `p` throughout. */
  lemma {:induction false} JoinAll(ps: seq<string>, sep: string, p: char -> bool)
    requires forall i :: 0 <= i < |ps| ==> All(ps[i], p)
    requires All(sep, p)
    ensures All(Join(ps, sep), p)
  {
    if |ps| > 1 {
      JoinAll(ps[1..], sep, p);
      var j := Join(ps, sep);
      assert j == ps[0] + sep + Join(ps[1..], sep);
      forall i | 0 <= i < |j| ensures p(j[i]) {
        if i < |ps[0]| {
          assert j[i] == ps[0][i];
        } else if i < |ps[0]| + |sep| {
          assert j[i] == sep[i - |ps[0]|];
        } else {
          assert j[i] == Join(ps[1..], sep)[i - |ps[0]| - |sep|];
        }
      }
    }
  }

  /** Words free of whitespace joined by single spaces split back into the same words. */
  lemma SplitWhitespaceJoin(ws: seq<string>)
    requires |ws| >= 1
    requires forall i :: 0 <= i < |ws| ==> ws[i] != "" && All(ws[i], c => !IsWhitespace(c))
    ensures SplitWhitespace(Join(ws, " ")) == ws
  {
    var j := Join(ws, " ");
    JoinAll(ws, " ", c => !IsWhitespace(c) || c == ' ');
    assert MapChars(j, Blank) == j;
    assert forall i :: 0 <= i < |ws| ==> ' ' !in ws[i];
    SplitJoin(ws, ' ');
    NonEmptyPartsKeep(ws);
  }

  /** Upper-casing never produces or removes whitespace or hyphens. */
  lemma CapWordKeepsClasses(w: string)
    requires w != "" && All(w, c => !IsWhitespace(c))
    ensures CapWord(w) != "" && All(CapWord(w), c => !IsWhitespace(c))
  {
    CapWordSpec(w);
    var r := CapWord(w);
    forall i | 0 <= i < |r| ensures !IsWhitespace(r[i]) {
      assert r[i] == CapAt(w, i);
      assert !IsWhitespace(w[i]);
    }
  }

  /** Capitalising a word twice is the same as capitalising it once. */
  lemma CapWordIdempotent(w: string)
    ensures CapWord(CapWord(w)) == CapWord(w)
  {
    var r := CapWord(w);
    CapWordSpec(w);
    CapWordSpec(r);
    forall i | 0 <= i < |r| ensures CapWord(r)[i] == r[i] {
      if i > 0 {
        assert r[i - 1] == CapAt(w, i - 1);
      }
    }
  }

  /**
   * `cap` rejoins the capitalised words of its input with single spaces:
   * splitting its output on whitespace gives exactly those words.
   */
  lemma CapSplitsIntoWords(name: string)
    ensures name == "" ==> Cap(name) == ""
    ensures SplitWhitespace(Cap(name)) == CapWords(SplitWhitespace(name))
  {
    var ws := SplitWhitespace(name);
    SplitWhitespaceWords(name);
    var cws := CapWords(ws);
    forall i | 0 <= i < |cws| ensures cws[i] != "" && All(cws[i], c => !IsWhitespace(c)) {
      CapWordKeepsClasses(ws[i]);
    }
    if |ws| >= 1 {
      SplitWhitespaceJoin(cws);
    } else {
      assert Join(cws, " ") == "";
      assert MapChars("", Blank) == "";
      assert Split("", ' ') == [""];
      assert NonEmptyParts([""]) == [];
    }
  }

  /** `cap` is idempotent: an already capitalised name is left as it is. */
  lemma CapIdempotent(name: string)
    ensures Cap(Cap(name)) == Cap(name)
  {
    CapSplitsIntoWords(name);
    var ws := SplitWhitespace(name);
    var cws := CapWords(ws);
    forall i | 0 <= i < |cws| ensures CapWord(cws[i]) == cws[i] {
      CapWordIdempotent(ws[i]);
    }
    assert CapWords(cws) == cws;
    if Cap(name) == "" {
    } else {
      assert SplitWhitespace(Cap(name)) == cws;
    }
  }

  // ---------------------------------------------------------------------
  // email_to_mxid_localpart

  /** An allowed character is neither `@` nor an upper-case letter. */
  lemma AllowedIsLower(c: char)
    requires AllowedInLocalpart(c)
    ensures c != '@' && Lower(c) == c
  {
  }

  /** An address made only of allowed characters is its own localpart. */
  lemma LocalpartKeepsAllowed(address: string)
    requires All(address, AllowedInLocalpart)
    ensures EmailToMxidLocalpart(address) == address
  {
    var replaced := ReplaceChar(address, '@', '-');
    forall i | 0 <= i < |address| ensures address[i] != '@' && Lower(address[i]) == address[i] {
      AllowedIsLower(address[i]);
    }
    assert replaced == address;
    assert Lowercase(replaced) == address;
    FilterKeepsAllowed(address, AllowedInLocalpart);
  }

  /** Deriving a localpart from a derived localpart changes nothing. */
  lemma LocalpartIdempotent(address: string)
    ensures EmailToMxidLocalpart(EmailToMxidLocalpart(address)) == EmailToMxidLocalpart(address)
  {
    LocalpartKeepsAllowed(EmailToMxidLocalpart(address));
  }

  /** The derived localpart ignores the letter case of the address. */
  lemma LocalpartIgnoresCase(address: string)
    ensures EmailToMxidLocalpart(Lowercase(address)) == EmailToMxidLocalpart(address)
  {
    var a := Lowercase(ReplaceChar(Lowercase(address), '@', '-'));
    var b := Lowercase(ReplaceChar(address, '@', '-'));
    assert a == b;
  }

  // ---------------------------------------------------------------------
  // email_to_display_name

  /** The organisation rules, by the last labels of the domain. */
  lemma OrgRules(labels: seq<string>, x: string)
    ensures Org(labels + ["matrix", "org"]) == "Tchap Admin"
    ensures Org(labels + [x, "gouv", "fr"]) == x
    ensures Org(["gouv", "fr"]) == "gouv"
    ensures |labels| >= 2 && (labels[|labels| - 2], labels[|labels| - 1]) != ("matrix", "org")
      && (labels[|labels| - 2], labels[|labels| - 1]) != ("gouv", "fr")
      ==> Org(labels) == labels[|labels| - 2]
    ensures |labels| < 2 ==> Org(labels) == ""
  {
    var l1 := labels + ["matrix", "org"];
    assert l1[|l1| - 2] == "matrix" && l1[|l1| - 1] == "org";
    var l2 := labels + [x, "gouv", "fr"];
    assert l2[|l2| - 3] == x && l2[|l2| - 2] == "gouv" && l2[|l2| - 1] == "fr";
  }

  /**
   * For an address `user@domain` with one `@`, the display name is the
   * capitalised user part with dots as spaces, then the capitalised
   * organisation of the domain's labels in brackets.
   */
  lemma DisplayNameOf(user: string, labels: seq<string>)
    requires '@' !in user
    requires |labels| >= 1
    requires forall i :: 0 <= i < |labels| ==> '@' !in labels[i] && '.' !in labels[i]
    ensures EmailToDisplayName(user + "@" + Join(labels, "."))
      == Cap(ReplaceChar(user, '.', ' ')) + " [" + Cap(Org(labels)) + "]"
  {
    var domain := Join(labels, ".");
    JoinAll(labels, ".", c => c != '@');
    assert '@' !in domain;
    SplitFirstPart(user, '@', domain);
    SplitNoSeparator(domain, '@');
    SplitJoin(labels, '.');
    assert Split(user + "@" + domain, '@') == [user, domain];
  }
}
