/** `sanitizeHtmlForTelegram`: paragraph and div tags, which Telegram's HTML
    mode rejects, are turned into line breaks or dropped, runs of three or
    more newlines are cut to two, and the result is trimmed. Each regular
    expression replacement is a left-to-right scan that replaces the
    leftmost match and resumes after it, as a global `replace` does. */
module Html {
  import opened Text

  /** `</name>` starts `s`, the tag name in any ASCII case (flag `i`). */
  predicate CloseTagAt(s: string, name: string) {
    |s| >= 3 + |name| && s[0] == '<' && s[1] == '/'
    && LowerAscii(s[2..2 + |name|]) == name && s[2 + |name|] == '>'
  }

  /** `s.replace(/<\/name>\s*\/gi, repl)`: the closing tag and the white
      space after it become `repl`. */
  function ReplaceClose(s: string, name: string, repl: string): string
    decreases |s|
  {
    if s == [] then []
    else if CloseTagAt(s, name) then repl + ReplaceClose(TrimStart(s[3 + |name|..]), name, repl)
    else [s[0]] + ReplaceClose(s[1..], name, repl)
  }

  /** The index of the first `c` in `t`. */
  function FirstIndex(t: string, c: char): (k: nat)
    requires c in t
    ensures k < |t| && t[k] == c && c !in t[..k]
  {
    if t[0] == c then 0
    else
      var k := FirstIndex(t[1..], c);
      assert t[..k + 1] == [t[0]] + t[1..][..k];
      k + 1
  }

  /** The length of the match of `/<name(?:\s[^>]*)?>/i` at the start of
      `s`, or 0 when there is none: the name is followed by `>` at once, or
      by white space and then everything up to the first `>`. */
  function OpenTagLength(s: string, name: string): (n: nat)
    ensures n <= |s|
  {
    var k := 1 + |name|;
    if |s| > k && s[0] == '<' && LowerAscii(s[1..k]) == name then
      if s[k] == '>' then k + 1
      else if IsSpace(s[k]) && '>' in s[k + 1..] then k + 1 + FirstIndex(s[k + 1..], '>') + 1
      else 0
    else 0
  }

  /** `s.replace(/<name(?:\s[^>]*)?>/gi, "")`. */
  function StripOpen(s: string, name: string): string
    decreases |s|
  {
    if s == [] then []
    else
      var n := OpenTagLength(s, name);
      if n > 0 then StripOpen(s[n..], name) else [s[0]] + StripOpen(s[1..], name)
  }

  /** The length of the run of newlines that starts `s`. */
  function NewlineRun(s: string): (n: nat)
    ensures n <= |s|
    ensures forall i :: 0 <= i < n ==> s[i] == '\n'
    ensures n == |s| || s[n] != '\n'
  {
    if s != [] && s[0] == '\n' then 1 + NewlineRun(s[1..]) else 0
  }

  /** `s.replace(/\n{3,}/g, "\n\n")`: a maximal run of three or more
      newlines becomes two. */
  function Collapse(s: string): string
    decreases |s|
  {
    if s == [] then []
    else if s[0] != '\n' then [s[0]] + Collapse(s[1..])
    else
      var n := NewlineRun(s);
      (if n >= 3 then "\n\n" else s[..n]) + Collapse(s[n..])
  }

  function SanitizeHtmlForTelegram(html: string): string
  {
    var paragraphs := StripOpen(ReplaceClose(html, "p", "\n\n"), "p");
    var divs := StripOpen(ReplaceClose(paragraphs, "div", "\n"), "div");
    Trim(Collapse(divs))
  }

  /** No run of three newlines. */
  predicate NoTripleNewline(s: string) {
    forall i :: 0 <= i < |s| - 2 ==> !(s[i] == '\n' && s[i + 1] == '\n' && s[i + 2] == '\n')
  }

  // ---------------------------------------------------------------------
  // Properties

  lemma TrimStartSkips(ws: string, t: string)
    requires forall i :: 0 <= i < |ws| ==> IsSpace(ws[i])
    requires t == [] || !IsSpace(t[0])
    ensures TrimStart(ws + t) == t
  {
    var s := ws + t;
    forall k | 0 <= k < |ws| ensures IsSpace(s[k]) {
      assert s[k] == ws[k];
    }
    assert |ws| < |s| ==> s[|ws|] == t[0];
    SpaceRunEndIs(s, 0, |ws|);
    assert s[|ws|..] == t;
  }

  /** A closing tag, written in any case, and all the white space after it
      become the replacement: `</p>` gives a paragraph break, `</div>` a
      line break. */
  lemma CloseTagReplaced(written: string, ws: string, t: string, name: string, repl: string)
    requires |written| == |name| && LowerAscii(written) == name
    requires forall i :: 0 <= i < |ws| ==> IsSpace(ws[i])
    requires t == [] || !IsSpace(t[0])
    ensures ReplaceClose("</" + written + ">" + ws + t, name, repl) == repl + ReplaceClose(t, name, repl)
  {
    var s := "</" + written + ">" + ws + t;
    assert s[2..2 + |name|] == written;
    assert s[0] == '<' && s[1] == '/' && s[2 + |name|] == '>';
    assert CloseTagAt(s, name);
    assert s[3 + |name|..] == ws + t;
    TrimStartSkips(ws, t);
    assert ReplaceClose(s, name, repl) == repl + ReplaceClose(TrimStart(s[3 + |name|..]), name, repl);
  }

  /** An opening tag, in any case, with or without attributes, is dropped. */
  lemma OpenTagDropped(written: string, attrs: string, t: string, name: string)
    requires |written| == |name| && LowerAscii(written) == name
    requires attrs == [] || (IsSpace(attrs[0]) && '>' !in attrs)
    ensures StripOpen("<" + written + attrs + ">" + t, name) == StripOpen(t, name)
  {
    var s := "<" + written + attrs + ">" + t;
    TagShape(written, attrs, t);
    assert OpenTagLength(s, name) == |attrs| + |name| + 2 by {
      if attrs != [] {
        OpenTagWithAttributes(s, name, |attrs| - 1);
      }
    }
  }

  /** Where the pieces of a written opening tag sit. */
  lemma TagShape(written: string, attrs: string, t: string)
    ensures var s := "<" + written + attrs + ">" + t; var k := 1 + |written|;
      |s| == k + |attrs| + 1 + |t| && s[0] == '<' && s[1..k] == written
      && s[k + |attrs|] == '>' && s[k + |attrs| + 1..] == t
      && s[k..k + |attrs|] == attrs
      && (attrs != [] ==> s[k] == attrs[0] && s[k + 1..k + |attrs|] == attrs[1..])
  {
    var s := "<" + written + attrs + ">" + t;
    var k := 1 + |written|;
    assert s == ("<" + written) + (attrs + ">" + t);
    var rest := attrs + ">" + t;
    assert rest[|attrs|] == '>';
    assert rest[..|attrs|] == attrs;
    assert rest[|attrs| + 1..] == t;
  }

  /** The length of an opening tag with attributes: `m` characters after
      the space that follows the name, then the first `>`. */
  lemma OpenTagWithAttributes(s: string, name: string, m: nat)
    requires |s| > 1 + |name| + 1 + m && s[0] == '<'
    requires LowerAscii(s[1..1 + |name|]) == name && IsSpace(s[1 + |name|])
    requires s[2 + |name| + m] == '>' && '>' !in s[2 + |name|..2 + |name| + m]
    ensures OpenTagLength(s, name) == 2 + |name| + m + 1
  {
    var rest := s[2 + |name|..];
    assert rest[m] == '>';
    assert rest[..m] == s[2 + |name|..2 + |name| + m];
    FirstIndexIs(rest, '>', m);
  }

  lemma FirstIndexIs(t: string, c: char, k: nat)
    requires k < |t| && t[k] == c && c !in t[..k]
    ensures c in t && FirstIndex(t, c) == k
  {
    var j := FirstIndex(t, c);
    forall i | 0 <= i < k ensures t[i] != c {
      assert t[..k][i] == t[i];
    }
    forall i | 0 <= i < j ensures t[i] != c {
      assert t[..j][i] == t[i];
    }
  }

  /** `<pre>` and `</pre>` survive both paragraph passes: after `<p` comes
      `r`, which is neither `>` nor white space. */
  lemma PreUntouched(t: string)
    ensures StripOpen("<pre>" + t, "p") == "<pre>" + StripOpen(t, "p")
    ensures ReplaceClose("</pre>" + t, "p", "\n\n") == "</pre>" + ReplaceClose(t, "p", "\n\n")
  {
    PreOpenUntouched(t);
    PreCloseUntouched(t);
  }

  lemma PreOpenUntouched(t: string)
    ensures StripOpen("<pre>" + t, "p") == "<pre>" + StripOpen(t, "p")
  {
    var u := "<pre>";
    assert (u + t)[2] == 'r';
    NotThisTag(u + t, "p");
    assert '<' !in u[1..];
    NoTagCopied(u, t, "p");
  }

  /** Text whose only `<` is at its start, where no opening tag starts, is
      copied by the opening-tag pass. */
  lemma NoTagCopied(u: string, t: string, name: string)
    requires u != [] && OpenTagLength(u + t, name) == 0 && '<' !in u[1..]
    ensures StripOpen(u + t, name) == u + StripOpen(t, name)
  {
    FirstCopied(u, t, name);
    StripOpenCopies(u[1..], t, name);
    Regroup(u, StripOpen(t, name));
  }

  lemma FirstCopied(u: string, t: string, name: string)
    requires u != [] && OpenTagLength(u + t, name) == 0
    ensures StripOpen(u + t, name) == [u[0]] + StripOpen(u[1..] + t, name)
  {
    var w := u + t;
    assert w[0] == u[0] && w[1..] == u[1..] + t;
    PlainStep(w, name);
  }

  lemma Regroup(u: string, x: string)
    requires u != []
    ensures [u[0]] + (u[1..] + x) == u + x
  {
    assert u == [u[0]] + u[1..];
  }

  /** No opening tag starts where the name is followed by something other
      than `>` and white space. */
  lemma NotThisTag(s: string, name: string)
    requires |s| > 1 + |name| && s[1 + |name|] != '>' && !IsSpace(s[1 + |name|])
    ensures OpenTagLength(s, name) == 0
  {
  }

  lemma PreCloseUntouched(t: string)
    ensures ReplaceClose("</pre>" + t, "p", "\n\n") == "</pre>" + ReplaceClose(t, "p", "\n\n")
  {
    var c := "</pre>" + t;
    assert !CloseTagAt(c, "p") by {
      assert c[3] == 'r';
    }
    assert c[1..] == "/pre>" + t;
    ReplaceCloseCopies("/pre>", t, "p", "\n\n");
  }

  /** Text without `<` in front of `t` is copied by the opening-tag pass. */
  lemma {:induction false} StripOpenCopies(u: string, t: string, name: string)
    requires '<' !in u
    ensures StripOpen(u + t, name) == u + StripOpen(t, name)
    decreases |u|
  {
    if u == [] {
      assert u + t == t;
    } else {
      TailShape(u, t);
      NoTagAt(u + t, name);
      FirstCopied(u, t, name);
      StripOpenCopies(u[1..], t, name);
      Regroup(u, StripOpen(t, name));
    }
  }

  /** No opening tag starts where the first character is not `<`. */
  lemma NoTagAt(v: string, name: string)
    requires v != [] && v[0] != '<'
    ensures OpenTagLength(v, name) == 0
  {
  }

  /** Where no opening tag starts, the first character is copied. */
  lemma PlainStep(w: string, name: string)
    requires w != [] && OpenTagLength(w, name) == 0
    ensures StripOpen(w, name) == [w[0]] + StripOpen(w[1..], name)
  {
  }

  /** The same for the closing-tag pass. */
  lemma {:induction false} ReplaceCloseCopies(u: string, t: string, name: string, repl: string)
    requires '<' !in u
    ensures ReplaceClose(u + t, name, repl) == u + ReplaceClose(t, name, repl)
    decreases |u|
  {
    if u == [] {
      assert u + t == t;
    } else {
      var w := u + t;
      TailShape(u, t);
      assert !CloseTagAt(w, name);
      assert ReplaceClose(w, name, repl) == [u[0]] + ReplaceClose(w[1..], name, repl);
      ReplaceCloseCopies(u[1..], t, name, repl);
      var rest := ReplaceClose(t, name, repl);
      assert [u[0]] + (u[1..] + rest) == ([u[0]] + u[1..]) + rest;
    }
  }

  /** Splitting the first character off `u + t`. */
  lemma TailShape(u: string, t: string)
    requires u != [] && '<' !in u
    ensures (u + t)[0] == u[0] != '<' && (u + t)[1..] == u[1..] + t && u == [u[0]] + u[1..]
    ensures '<' !in u[1..]
  {
  }

  /** Text without a `<` is left as it is by every tag pass. */
  lemma {:induction false} NoTagsUnchanged(s: string, name: string, repl: string)
    requires '<' !in s
    ensures ReplaceClose(s, name, repl) == s
    ensures StripOpen(s, name) == s
  {
    if s != [] {
      assert s[1..] == s[1..];
      assert '<' !in s[1..];
      NoTagsUnchanged(s[1..], name, repl);
    }
  }

  /** Text without a run of three newlines is left as it is by the newline
      pass. */
  lemma {:induction false} CollapseIdle(s: string)
    requires NoTripleNewline(s)
    ensures Collapse(s) == s
    decreases |s|
  {
    if s != [] {
      if s[0] != '\n' {
        CollapseIdle(s[1..]);
      } else {
        var n := NewlineRun(s);
        assert n < 3 by {
          assert |s| < 3 || !(s[0] == '\n' && s[1] == '\n' && s[2] == '\n');
        }
        assert NoTripleNewline(s[n..]) by {
          forall i | 0 <= i < |s[n..]| - 2 ensures !(s[n..][i] == '\n' && s[n..][i + 1] == '\n' && s[n..][i + 2] == '\n') {
            assert s[n..][i] == s[n + i];
          }
        }
        CollapseIdle(s[n..]);
        assert s[..n] + s[n..] == s;
      }
    }
  }

  /** Text with no tag and no run of three newlines comes out only trimmed. */
  lemma PassThrough(s: string)
    requires '<' !in s && NoTripleNewline(s)
    ensures SanitizeHtmlForTelegram(s) == Trim(s)
  {
    NoTagsUnchanged(s, "p", "\n\n");
    NoTagsUnchanged(s, "div", "\n");
    CollapseIdle(s);
  }

  /** The newline pass leaves no run of three newlines, and its output
      starts with a newline only when its input does. */
  lemma {:induction false} CollapseNoTriple(s: string)
    ensures NoTripleNewline(Collapse(s))
    ensures |Collapse(s)| > 0 ==> |s| > 0 && (Collapse(s)[0] == '\n' <==> s[0] == '\n')
    decreases |s|
  {
    if s != [] {
      if s[0] != '\n' {
        CollapseNoTriple(s[1..]);
      } else {
        var n := NewlineRun(s);
        CollapseNoTriple(s[n..]);
        var head: string := if n >= 3 then "\n\n" else s[..n];
        var rest := Collapse(s[n..]);
        assert |head| <= 2;
        assert rest == [] || rest[0] != '\n';
        var r := head + rest;
        forall i | 0 <= i < |r| - 2 ensures !(r[i] == '\n' && r[i + 1] == '\n' && r[i + 2] == '\n') {
          if i >= |head| {
            assert r[i] == rest[i - |head|] && r[i + 1] == rest[i + 1 - |head|] && r[i + 2] == rest[i + 2 - |head|];
          } else {
            var j := |head| - i;
            assert 1 <= j <= 2;
            assert r[i + j] == rest[0];
          }
        }
      }
    }
  }

  /** A piece of a text without three newlines in a row has none either. */
  lemma SliceNoTriple(s: string, lo: nat, hi: nat)
    requires lo <= hi <= |s| && NoTripleNewline(s)
    ensures NoTripleNewline(s[lo..hi])
  {
    forall i | 0 <= i < hi - lo - 2 ensures !(s[lo..hi][i] == '\n' && s[lo..hi][i + 1] == '\n' && s[lo..hi][i + 2] == '\n') {
      assert s[lo..hi][i] == s[lo + i];
    }
  }

  /** Trimming keeps a text free of triple newlines and leaves no white
      space at either end. */
  lemma TrimmedShape(c: string)
    requires NoTripleNewline(c)
    ensures var r := Trim(c);
      NoTripleNewline(r) && (r == [] || (!IsSpace(r[0]) && !IsSpace(r[|r| - 1])))
  {
    TrimBounds(c);
    SliceNoTriple(c, TrimOffset(c), TrimOffset(c) + |Trim(c)|);
  }

  /** The sanitized text has no run of three newlines and no white space at
      either end. */
  lemma SanitizedShape(html: string)
    ensures var r := SanitizeHtmlForTelegram(html);
      NoTripleNewline(r) && (r == [] || (!IsSpace(r[0]) && !IsSpace(r[|r| - 1])))
  {
    var paragraphs := StripOpen(ReplaceClose(html, "p", "\n\n"), "p");
    var divs := StripOpen(ReplaceClose(paragraphs, "div", "\n"), "div");
    CollapseNoTriple(divs);
    TrimmedShape(Collapse(divs));
  }
}
