/**
 The summary template of an alert: host and peer names cut out of the text and
 replaced by tokens.  A reader puts them back with two plain replacements, and
 gets the text back because no other text can look like a token.
 */
module SummaryTemplate {
  import opened Wrappers
  import opened Utf8

  datatype Kind = Host | Peer

  function Token(kind: Kind): (t: string)
    ensures |t| == 6 && t[0] == '{' && forall i :: 1 <= i < 6 ==> t[i] != '{'
    ensures t[1] == if kind == Host then 'h' else 'p'
  {
    match kind
    case Host => "{host}"
    case Peer => "{peer}"
  }

  /** What the scan found, from left to right. */
  datatype Piece = Literal(c: char) | Name(kind: Kind)

  datatype Names = Names(host: string, peer: string)

  function NameOf(names: Names, kind: Kind): (s: string) {
    if kind == Host then names.host else names.peer
  }

  /** The text the pieces stand for. */
  function TextOf(pieces: seq<Piece>, names: Names): (s: string) {
    if pieces == [] then []
    else (match pieces[0] case Literal(c) => [c] case Name(kind) => NameOf(names, kind)) + TextOf(pieces[1..], names)
  }

  /** The template the pieces are sent as. */
  function Render(pieces: seq<Piece>): (s: string) {
    if pieces == [] then []
    else (match pieces[0] case Literal(c) => [c] case Name(kind) => Token(kind)) + Render(pieces[1..])
  }

  predicate Contains(s: string, token: string)
    decreases |s|
  {
    token <= s || (s != [] && Contains(s[1..], token))
  }

  /** Replaces every occurrence from left to right. */
  function ReplaceAll(s: string, token: string, value: string): (r: string)
    requires token != []
    decreases |s|
  {
    if s == [] then []
    else if token <= s then value + ReplaceAll(s[|token|..], token, value)
    else [s[0]] + ReplaceAll(s[1..], token, value)
  }

  /** What a reader of the summary does. */
  function Expand(template: string, names: Names): (s: string) {
    ReplaceAll(ReplaceAll(template, Token(Host), names.host), Token(Peer), names.peer)
  }

  // ---------------------------------------------------------------- the scan

  /** The names to look for: nonempty, the longer encoding first, the host first on a tie. */
  function Candidates(names: Names): (ks: seq<Kind>)
    ensures forall k :: k in ks <==> NameOf(names, k) != []
    ensures |ks| <= 2 && (|ks| == 2 ==> ks[0] != ks[1] && |Encode(NameOf(names, ks[0]))| >= |Encode(NameOf(names, ks[1]))|)
    ensures |ks| == 2 && |Encode(names.host)| == |Encode(names.peer)| ==> ks[0] == Host
  {
    var order := if |Encode(names.peer)| > |Encode(names.host)| then [Peer, Host] else [Host, Peer];
    var first := if NameOf(names, order[0]) != [] then [order[0]] else [];
    if NameOf(names, order[1]) != [] then first + [order[1]] else first
  }

  function FirstMatch(remaining: string, names: Names, ks: seq<Kind>): (k: Option<Kind>)
    ensures k.Some? ==> k.value in ks && NameOf(names, k.value) <= remaining
    ensures k.None? ==> forall i :: i in ks ==> !(NameOf(names, i) <= remaining)
  {
    if ks == [] then None
    else if NameOf(names, ks[0]) <= remaining then Some(ks[0])
    else FirstMatch(remaining, names, ks[1..])
  }

  function Scan(text: string, names: Names): (pieces: seq<Piece>)
    decreases |text|
  {
    if text == [] then []
    else
      var k := FirstMatch(text, names, Candidates(names));
      if k.Some? then [Name(k.value)] + Scan(text[|NameOf(names, k.value)|..], names)
      else [Literal(text[0])] + Scan(text[1..], names)
  }

  lemma {:induction false} ScanKeepsText(text: string, names: Names)
    ensures TextOf(Scan(text, names), names) == text
    decreases |text|
  {
    if text != [] {
      var k := FirstMatch(text, names, Candidates(names));
      if k.Some? {
        ScanKeepsText(text[|NameOf(names, k.value)|..], names);
      } else {
        ScanKeepsText(text[1..], names);
      }
    }
  }

  /** The name of this kind stands at the front of the text. */
  predicate Begins(rest: string, names: Names, kind: Kind) { NameOf(names, kind) != [] && NameOf(names, kind) <= rest }

  /** Of two names at the front, the one with the longer encoding is taken, and the host's on a tie. */
  predicate Preferred(rest: string, names: Names, kind: Kind) {
    && Begins(rest, names, kind)
    && (kind == Host && Begins(rest, names, Peer) ==> |Encode(names.host)| >= |Encode(names.peer)|)
    && (kind == Peer && Begins(rest, names, Host) ==> |Encode(names.peer)| > |Encode(names.host)|)
  }

  /**
   The scan leaves a character as it is exactly where neither name stands in the
   text, and otherwise takes the preferred name.
   */
  lemma {:induction false} ScanIsGreedy(text: string, names: Names, i: nat)
    requires i < |Scan(text, names)|
    ensures PieceStands(text, names, Scan(text, names), i)
    decreases i
  {
    var pieces := Scan(text, names);
    var step := FirstStep(text, names, pieces);
    if i > 0 {
      ScanIsGreedy(text[step..], names, i - 1);
      LaterPiece(text, names, pieces, step, i);
    }
  }

  predicate PieceStands(text: string, names: Names, pieces: seq<Piece>, i: nat) {
    i < |pieces| && Stands(text, names, pieces[i], |TextOf(pieces[..i], names)|)
  }

  /** What the scan makes of the text from a position on. */
  predicate Stands(text: string, names: Names, piece: Piece, at: nat) {
    && at < |text|
    && match piece
       case Literal(c) => c == text[at] && !Begins(text[at..], names, Host) && !Begins(text[at..], names, Peer)
       case Name(kind) => Preferred(text[at..], names, kind)
  }

  /** A later piece stands where it does in the rest of the text, after the first step. */
  lemma LaterPiece(text: string, names: Names, pieces: seq<Piece>, step: nat, i: nat)
    requires step <= |text| && 0 < i < |pieces| && PieceStands(text[step..], names, pieces[1..], i - 1)
    requires TextOf(pieces[..1], names) == text[..step]
    ensures PieceStands(text, names, pieces, i)
  {
    LaterOffset(pieces, names, i);
    StandsAfter(text, names, pieces[i], step, |TextOf(pieces[1..][..i - 1], names)|, |TextOf(pieces[..i], names)|);
  }

  lemma LaterOffset(pieces: seq<Piece>, names: Names, i: nat)
    requires 0 < i <= |pieces|
    ensures |TextOf(pieces[..i], names)| == |TextOf(pieces[..1], names)| + |TextOf(pieces[1..][..i - 1], names)|
  {
    assert pieces[..i] == pieces[..1] + pieces[1..][..i - 1];
    TextAppend(pieces[..1], pieces[1..][..i - 1], names);
  }

  lemma StandsAfter(text: string, names: Names, piece: Piece, step: nat, at: nat, from: nat)
    requires step <= |text| && Stands(text[step..], names, piece, at) && from == step + at
    ensures Stands(text, names, piece, from)
  {
    assert text[step..][at..] == text[step + at..];
  }

  /** What the first piece stands for. */
  lemma FirstStep(text: string, names: Names, pieces: seq<Piece>) returns (step: nat)
    requires pieces == Scan(text, names) && pieces != []
    ensures 0 < step <= |text| && pieces[1..] == Scan(text[step..], names)
    ensures TextOf(pieces[..1], names) == text[..step] && PieceStands(text, names, pieces, 0)
  {
    var k := FirstMatch(text, names, Candidates(names));
    FirstIsPreferred(text, names);
    step := if k.Some? then |NameOf(names, k.value)| else 1;
    assert pieces[1..] == Scan(text[step..], names);
    assert pieces[..1][1..] == [];
    assert text[0..] == text;
  }

  lemma FirstIsPreferred(text: string, names: Names)
    ensures
      var k := FirstMatch(text, names, Candidates(names));
      if k.None? then !Begins(text, names, Host) && !Begins(text, names, Peer) else Preferred(text, names, k.value)
  {
    var ks := Candidates(names);
    if |ks| == 2 {
      assert ks[1..] == [ks[1]];
    }
  }

  /** None when the text already holds a token, else the rendered scan. */
  method SummaryTemplateOf(text: string, host: Option<string>, peer: Option<string>) returns (r: Option<string>)
    ensures r == TemplateSpec(text, host, peer)
    ensures r.None? <==> Contains(text, Token(Host)) || Contains(text, Token(Peer)) || host.None? || peer.None?
  {
    if Contains(text, Token(Host)) || Contains(text, Token(Peer)) {
      return None;
    }
    if host.None? || peer.None? {
      return None;
    }
    var template := ScanToTemplate(text, Names(host.value, peer.value));
    r := Some(template);
  }

  method ScanToTemplate(text: string, names: Names) returns (template: string)
    ensures template == Render(Scan(text, names))
  {
    var candidates := Candidates(names);
    var remaining := text;
    template := [];
    while remaining != []
      invariant template + Render(Scan(remaining, names)) == Render(Scan(text, names))
      decreases |remaining|
    {
      ScanStep(remaining, names);
      var found := FirstMatch(remaining, names, candidates);
      ghost var done := template;
      if found.Some? {
        template := template + Token(found.value);
        remaining := remaining[|NameOf(names, found.value)|..];
        Associate(done, Token(found.value), Render(Scan(remaining, names)));
      } else {
        ghost var c := remaining[0];
        template := template + [remaining[0]];
        remaining := remaining[1..];
        Associate(done, [c], Render(Scan(remaining, names)));
      }
    }
    assert template + [] == template;
  }

  lemma Associate(a: string, b: string, c: string)
    ensures a + (b + c) == a + b + c
  {
  }

  lemma ScanStep(text: string, names: Names)
    requires text != []
    ensures
      var k := FirstMatch(text, names, Candidates(names));
      if k.Some? then
        NameOf(names, k.value) != []
        && Render(Scan(text, names)) == Token(k.value) + Render(Scan(text[|NameOf(names, k.value)|..], names))
      else Render(Scan(text, names)) == [text[0]] + Render(Scan(text[1..], names))
  {
    var k := FirstMatch(text, names, Candidates(names));
    if k.Some? {
      assert Scan(text, names)[1..] == Scan(text[|NameOf(names, k.value)|..], names);
    } else {
      assert Scan(text, names)[1..] == Scan(text[1..], names);
    }
  }

  function TemplateSpec(text: string, host: Option<string>, peer: Option<string>): (r: Option<string>) {
    if Contains(text, Token(Host)) || Contains(text, Token(Peer)) || host.None? || peer.None? then None
    else Some(Render(Scan(text, Names(host.value, peer.value))))
  }

  // ---------------------------------------------------------------- expansion restores the text

  function Literals(s: string): (pieces: seq<Piece>)
    ensures forall p :: p in pieces ==> p.Literal?
  {
    if s == [] then [] else [Literal(s[0])] + Literals(s[1..])
  }

  /** The pieces after one kind of token has been replaced by its name. */
  function Filled(pieces: seq<Piece>, kind: Kind, value: string): (r: seq<Piece>) {
    if pieces == [] then []
    else (if pieces[0] == Name(kind) then Literals(value) else [pieces[0]]) + Filled(pieces[1..], kind, value)
  }

  lemma {:induction false} RenderAppend(a: seq<Piece>, b: seq<Piece>)
    ensures Render(a + b) == Render(a) + Render(b)
    decreases |a|
  {
    if a == [] {
      assert a + b == b;
    } else {
      assert (a + b)[1..] == a[1..] + b;
      RenderAppend(a[1..], b);
    }
  }

  lemma {:induction false} TextAppend(a: seq<Piece>, b: seq<Piece>, names: Names)
    ensures TextOf(a + b, names) == TextOf(a, names) + TextOf(b, names)
    decreases |a|
  {
    if a == [] {
      assert a + b == b;
    } else {
      assert (a + b)[1..] == a[1..] + b;
      TextAppend(a[1..], b, names);
    }
  }

  lemma {:induction false} LiteralsRender(s: string, names: Names)
    ensures Render(Literals(s)) == s && TextOf(Literals(s), names) == s
    decreases |s|
  {
    if s != [] {
      LiteralsRender(s[1..], names);
      assert Literals(s)[1..] == Literals(s[1..]);
    }
  }

  lemma {:induction false} FilledKeepsText(pieces: seq<Piece>, kind: Kind, names: Names)
    ensures TextOf(Filled(pieces, kind, NameOf(names, kind)), names) == TextOf(pieces, names)
    decreases |pieces|
  {
    if pieces != [] {
      var value := NameOf(names, kind);
      var first := if pieces[0] == Name(kind) then Literals(value) else [pieces[0]];
      FilledKeepsText(pieces[1..], kind, names);
      TextAppend(first, Filled(pieces[1..], kind, value), names);
      LiteralsRender(value, names);
      assert [pieces[0]][1..] == [];
    }
  }

  lemma {:induction false} ContainsSuffix(a: string, b: string, token: string)
    requires Contains(b, token)
    ensures Contains(a + b, token)
    decreases |a|
  {
    if a == [] {
      assert a + b == b;
    } else {
      ContainsSuffix(a[1..], b, token);
      assert (a + b)[1..] == a[1..] + b;
    }
  }

  /** Text without '{' at the front of a template can only come from literals. */
  lemma {:induction false} PlainPrefixIsText(pieces: seq<Piece>, names: Names, w: string)
    requires w <= Render(pieces) && '{' !in w
    ensures w <= TextOf(pieces, names)
    decreases |w|
  {
    if w != [] {
      assert Render(pieces)[0] == w[0];
      assert pieces[0].Literal?;
      assert Render(pieces)[1..] == Render(pieces[1..]);
      PlainPrefixIsText(pieces[1..], names, w[1..]);
      assert w == [w[0]] + w[1..];
    }
  }

  /** No literal starts a false token: it would have been in the text already. */
  lemma LiteralStartsNoToken(pieces: seq<Piece>, names: Names, kind: Kind)
    requires pieces != [] && pieces[0].Literal? && !Contains(TextOf(pieces, names), Token(kind))
    ensures !(Token(kind) <= Render(pieces))
  {
    var token := Token(kind);
    if token <= Render(pieces) {
      var rest := Render(pieces[1..]);
      assert Render(pieces) == [pieces[0].c] + rest;
      assert token[1..] <= rest;
      PlainPrefixIsText(pieces[1..], names, token[1..]);
    }
  }

  lemma SkipChar(s: string, token: string, value: string)
    requires s != [] && token != [] && s[0] != token[0]
    ensures ReplaceAll(s, token, value) == [s[0]] + ReplaceAll(s[1..], token, value)
  {
  }

  lemma {:induction false} SkipPlain(a: string, b: string, kind: Kind, value: string)
    requires '{' !in a
    ensures ReplaceAll(a + b, Token(kind), value) == a + ReplaceAll(b, Token(kind), value)
    decreases |a|
  {
    if a == [] {
      assert a + b == b;
    } else {
      SkipChar(a + b, Token(kind), value);
      assert (a + b)[1..] == a[1..] + b;
      SkipPlain(a[1..], b, kind, value);
    }
  }

  /** A text shaped like a token of another kind is passed over. */
  lemma SkipShape(t: string, kind: Kind, rest: string, value: string)
    requires |t| == 6 && t[0] == '{' && t[1] != Token(kind)[1] && '{' !in t[1..]
    ensures ReplaceAll(t + rest, Token(kind), value) == t + ReplaceAll(rest, Token(kind), value)
  {
    var s := t + rest;
    var after := ReplaceAll(rest, Token(kind), value);
    assert s[1] != Token(kind)[1];
    assert s[1..] == t[1..] + rest;
    SkipPlain(t[1..], rest, kind, value);
    assert t == [t[0]] + t[1..];
    Associate([t[0]], t[1..], after);
  }

  lemma SkipOtherToken(kind: Kind, other: Kind, rest: string, value: string)
    requires other != kind
    ensures ReplaceAll(Token(other) + rest, Token(kind), value) == Token(other) + ReplaceAll(rest, Token(kind), value)
  {
    var t := Token(other);
    assert forall i :: 0 <= i < 5 ==> t[1..][i] == t[i + 1];
    SkipShape(t, kind, rest, value);
  }

  /** One replacement fills exactly the tokens of its kind. */
  lemma {:induction false} ReplaceFills(pieces: seq<Piece>, names: Names, kind: Kind)
    requires !Contains(TextOf(pieces, names), Token(kind))
    ensures ReplaceAll(Render(pieces), Token(kind), NameOf(names, kind)) == Render(Filled(pieces, kind, NameOf(names, kind)))
    decreases |pieces|
  {
    if pieces != [] {
      var value := NameOf(names, kind);
      var rest := pieces[1..];
      RestContains(pieces, names, Token(kind));
      ReplaceFills(rest, names, kind);
      match pieces[0]
      case Literal(c) =>
        LiteralStartsNoToken(pieces, names, kind);
        assert Render(pieces)[1..] == Render(rest);
        assert Filled(pieces, kind, value)[1..] == Filled(rest, kind, value);
      case Name(k) =>
        if k == kind {
          assert Render(pieces)[6..] == Render(rest);
          RenderAppend(Literals(value), Filled(rest, kind, value));
          LiteralsRender(value, names);
        } else {
          SkipOtherToken(kind, k, Render(rest), value);
          assert Filled(pieces, kind, value)[1..] == Filled(rest, kind, value);
        }
    }
  }

  lemma RestContains(pieces: seq<Piece>, names: Names, token: string)
    requires pieces != [] && !Contains(TextOf(pieces, names), token)
    ensures !Contains(TextOf(pieces[1..], names), token)
  {
    if Contains(TextOf(pieces[1..], names), token) {
      var first := match pieces[0] case Literal(c) => [c] case Name(kind) => NameOf(names, kind);
      ContainsSuffix(first, TextOf(pieces[1..], names), token);
    }
  }

  lemma {:induction false} AllFilled(pieces: seq<Piece>, names: Names)
    ensures
      Render(Filled(Filled(pieces, Host, names.host), Peer, names.peer)) ==
      TextOf(Filled(Filled(pieces, Host, names.host), Peer, names.peer), names)
    decreases |pieces|
  {
    if pieces != [] {
      var host := if pieces[0] == Name(Host) then Literals(names.host) else [pieces[0]];
      var rest := Filled(pieces[1..], Host, names.host);
      AllFilled(pieces[1..], names);
      FilledAppend(host, rest, Peer, names.peer);
      var first := Filled(host, Peer, names.peer);
      FilledIsPlain(host, names);
      RenderAppend(first, Filled(rest, Peer, names.peer));
      TextAppend(first, Filled(rest, Peer, names.peer), names);
    }
  }

  lemma {:induction false} FilledAppend(a: seq<Piece>, b: seq<Piece>, kind: Kind, value: string)
    ensures Filled(a + b, kind, value) == Filled(a, kind, value) + Filled(b, kind, value)
    decreases |a|
  {
    if a == [] {
      assert a + b == b;
    } else {
      assert (a + b)[1..] == a[1..] + b;
      FilledAppend(a[1..], b, kind, value);
    }
  }

  /** Once no host token is left, filling the peer leaves only literals. */
  lemma {:induction false} FilledIsPlain(pieces: seq<Piece>, names: Names)
    requires Name(Host) !in pieces
    ensures Render(Filled(pieces, Peer, names.peer)) == TextOf(Filled(pieces, Peer, names.peer), names)
    decreases |pieces|
  {
    if pieces != [] {
      var first := if pieces[0] == Name(Peer) then Literals(names.peer) else [pieces[0]];
      var rest := Filled(pieces[1..], Peer, names.peer);
      FilledIsPlain(pieces[1..], names);
      RenderAppend(first, rest);
      TextAppend(first, rest, names);
      LiteralsRender(names.peer, names);
      assert [pieces[0]][1..] == [];
    }
  }

  /** Whatever the text and names are, a template that is offered expands to the text. */
  lemma TemplateIsLossless(text: string, host: Option<string>, peer: Option<string>)
    requires TemplateSpec(text, host, peer).Some?
    ensures Expand(TemplateSpec(text, host, peer).value, Names(host.value, peer.value)) == text
  {
    var names := Names(host.value, peer.value);
    var pieces := Scan(text, names);
    ScanKeepsText(text, names);
    ReplaceFills(pieces, names, Host);
    var filled := Filled(pieces, Host, names.host);
    FilledKeepsText(pieces, Host, names);
    ReplaceFills(filled, names, Peer);
    FilledKeepsText(filled, Peer, names);
    AllFilled(pieces, names);
  }
}
