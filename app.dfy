/**
  The top-level component: it reads `status`, `pendingId` and `companyName`
  from the page's query string and shows the success page after a paid
  checkout; otherwise the loader while generating, the preview once results
  exist, or the form with the error banner. Percent-decoding is an input.
*/
module App {
  import opened Wrappers
  import opened Text
  import Gemini
  import Checkout
  import Generator

  // ---------------------------------------------------------------------------
  // The query string, as `URLSearchParams` reads it

  /** The search string without its leading `?`. */
  function QueryOf(search: string): (r: string)
    ensures search != [] && search[0] == '?' ==> search == "?" + r
    ensures !(search != [] && search[0] == '?') ==> r == search
  {
    if search != [] && search[0] == '?' then search[1..] else search
  }

  /** One `name=value` piece, split at its first `=`; a piece without one has an empty value. */
  function ParsePair(piece: string): (r: (string, string))
    ensures FirstOf(piece, '=').None? ==> r == (piece, "")
    ensures FirstOf(piece, '=').Some? ==> piece == r.0 + "=" + r.1 && Lacks(r.0, '=')
  {
    match FirstOf(piece, '=')
    case None => (piece, "")
    case Some(i) =>
      assert piece == piece[..i] + "=" + piece[i + 1..];
      (piece[..i], piece[i + 1..])
  }

  /** The non-empty pieces, in order. */
  function NonEmptyPieces(pieces: seq<string>): (r: seq<string>)
    ensures forall x :: x in r <==> x in pieces && x != ""
  {
    if pieces == [] then []
    else if pieces[0] == "" then NonEmptyPieces(pieces[1..])
    else [pieces[0]] + NonEmptyPieces(pieces[1..])
  }

  /** Filtering keeps the order: the non-empty pieces of two lists, one after the other. */
  lemma {:induction false} NonEmptyPiecesAppend(a: seq<string>, b: seq<string>)
    ensures NonEmptyPieces(a + b) == NonEmptyPieces(a) + NonEmptyPieces(b)
  {
    if a == [] {
      assert a + b == b;
    } else {
      assert (a + b)[1..] == a[1..] + b;
      NonEmptyPiecesAppend(a[1..], b);
    }
  }

  /** The pairs of the pieces, skipping empty pieces: one pair per non-empty piece, in order. */
  function Pairs(pieces: seq<string>): (r: seq<(string, string)>)
    ensures |r| == |NonEmptyPieces(pieces)|
    ensures forall i :: 0 <= i < |r| ==> r[i] == ParsePair(NonEmptyPieces(pieces)[i])
  {
    if pieces == [] then []
    else if pieces[0] == "" then Pairs(pieces[1..])
    else
      var rest := Pairs(pieces[1..]);
      assert NonEmptyPieces(pieces) == [pieces[0]] + NonEmptyPieces(pieces[1..]);
      assert forall i :: 1 <= i < 1 + |rest| ==> ([ParsePair(pieces[0])] + rest)[i] == rest[i - 1];
      [ParsePair(pieces[0])] + rest
  }

  /** The decoded value of the first pair whose decoded name is `key`. */
  function Lookup(pairs: seq<(string, string)>, key: string, dec: string -> string): (r: Option<string>)
    ensures r.Some? <==> exists i :: 0 <= i < |pairs| && dec(pairs[i].0) == key
    ensures r.Some? ==>
      exists i :: 0 <= i < |pairs| && dec(pairs[i].0) == key && r.value == dec(pairs[i].1)
                  && forall j :: 0 <= j < i ==> dec(pairs[j].0) != key
  {
    if pairs == [] then None
    else if dec(pairs[0].0) == key then Some(dec(pairs[0].1))
    else
      var rest := Lookup(pairs[1..], key, dec);
      assert forall i :: 1 <= i < |pairs| ==> pairs[i] == pairs[1..][i - 1];
      if rest.Some? then
        var i :| 0 <= i < |pairs[1..]| && dec(pairs[1..][i].0) == key && rest.value == dec(pairs[1..][i].1)
                 && forall j :: 0 <= j < i ==> dec(pairs[1..][j].0) != key;
        assert forall j :: 0 <= j < i + 1 ==> dec(pairs[j].0) != key;
        rest
      else rest
  }

  /** Looking a key up in the pairs of some pieces: found exactly when a non-empty piece has that decoded name. */
  lemma PairsLookupFound(pieces: seq<string>, key: string, dec: string -> string)
    ensures var r := Lookup(Pairs(pieces), key, dec);
      && (r.Some? <==> exists piece :: piece in pieces && piece != "" && dec(ParsePair(piece).0) == key)
      && (r.Some? ==>
            exists piece :: piece in pieces && piece != "" && dec(ParsePair(piece).0) == key
                            && r.value == dec(ParsePair(piece).1))
  {
    var named := NonEmptyPieces(pieces);
    assert forall i :: 0 <= i < |named| ==> named[i] in named;
  }

  lemma PairAt(pieces: seq<string>, i: nat)
    requires i < |Pairs(pieces)|
    ensures i < |NonEmptyPieces(pieces)| && Pairs(pieces)[i] == ParsePair(NonEmptyPieces(pieces)[i])
  {
  }

  /** `v` is the decoded value of the first of the `named` pieces whose decoded name is `key`. */
  predicate FirstMatch(named: seq<string>, key: string, dec: string -> string, v: string) {
    exists i :: 0 <= i < |named| && dec(ParsePair(named[i]).0) == key && v == dec(ParsePair(named[i]).1)
                && forall j :: 0 <= j < i ==> dec(ParsePair(named[j]).0) != key
  }

  /** The value found is the one of the first non-empty piece with that decoded name. */
  lemma PairsLookupFirst(pieces: seq<string>, key: string, dec: string -> string)
    ensures var r := Lookup(Pairs(pieces), key, dec);
      r.Some? ==> FirstMatch(NonEmptyPieces(pieces), key, dec, r.value)
  {
    var named := NonEmptyPieces(pieces);
    var pairs := Pairs(pieces);
    var r := Lookup(pairs, key, dec);
    if r.Some? {
      var i :| 0 <= i < |pairs| && dec(pairs[i].0) == key && r.value == dec(pairs[i].1)
               && forall j :: 0 <= j < i ==> dec(pairs[j].0) != key;
      PairAt(pieces, i);
      forall j | 0 <= j < i ensures dec(ParsePair(named[j]).0) != key {
        PairAt(pieces, j);
      }
    }
  }

  /**
    `new URLSearchParams(search).get(key)`, `None` standing for `null`: a value exactly
    when some non-empty `&`-piece has the decoded name `key`, and then the decoded value
    of such a piece (of the first one, by `ParamFirst`).
  */
  function Param(search: string, key: string, dec: string -> string): (r: Option<string>)
    ensures r.Some? <==> exists piece :: piece in SplitOn(QueryOf(search), '&') && piece != "" && dec(ParsePair(piece).0) == key
    ensures r.Some? ==>
      exists piece :: piece in SplitOn(QueryOf(search), '&') && piece != ""
                      && dec(ParsePair(piece).0) == key && r.value == dec(ParsePair(piece).1)
  {
    var pieces := SplitOn(QueryOf(search), '&');
    PairsLookupFound(pieces, key, dec);
    Lookup(Pairs(pieces), key, dec)
  }

  /** The value `get` gives is that of the first non-empty `&`-piece with the decoded name `key`. */
  lemma ParamFirst(search: string, key: string, dec: string -> string)
    ensures var r := Param(search, key, dec);
      r.Some? ==> FirstMatch(NonEmptyPieces(SplitOn(QueryOf(search), '&')), key, dec, r.value)
  {
    var pieces := SplitOn(QueryOf(search), '&');
    assert Param(search, key, dec) == Lookup(Pairs(pieces), key, dec);
    PairsLookupFirst(pieces, key, dec);
  }

  /** A text made only of ASCII letters, digits and `_`, which percent-decoding leaves alone. */
  predicate Plain(w: string) {
    forall i :: 0 <= i < |w| ==> IsWordChar(w[i])
  }

  /** What the decoder is assumed to do: leave plain text unchanged. */
  ghost predicate FixesPlain(dec: string -> string) {
    forall w :: Plain(w) ==> dec(w) == w
  }

  /** The pending id and company name when the page is the checkout's success redirect. */
  function SuccessRoute(search: string, dec: string -> string): (r: Option<(string, string)>)
    ensures r.Some? <==>
      Param(search, "status", dec) == Some("success")
      && Truthy(Param(search, "pendingId", dec)) && Truthy(Param(search, "companyName", dec))
    ensures r.Some? ==> r.value.0 != "" && r.value.1 != ""
  {
    var status := Param(search, "status", dec);
    var pendingId := Param(search, "pendingId", dec);
    var companyName := Param(search, "companyName", dec);
    if status == Some("success") && Truthy(pendingId) && Truthy(companyName) then Some((pendingId.value, companyName.value))
    else None
  }

  // ---------------------------------------------------------------------------
  // The checkout's success URL read back

  /** A `name=value` piece of a query string. */
  function Field(name: string, value: string): string { name + "=" + value }

  /** The query string of the success URL the checkout session is given, `?` and four pieces. */
  function SuccessSearch(pendingId: string, encodedName: string, sessionId: string): string {
    "?" + (Field("status", "success") + "&" + (Field("pendingId", pendingId) + "&"
           + (Field("companyName", encodedName) + "&" + Field("session_id", sessionId))))
  }

  /** The literal parts of the checkout's success URL, cut at the piece boundaries. */
  lemma SuccessUrlLiterals()
    ensures "/?status=success&pendingId=" == "/" + ("?" + Field("status", "success") + "&") + "pendingId" + "="
    ensures "&companyName=" == "&" + "companyName" + "="
    ensures "&session_id=" == "&" + "session_id" + "="
  {
  }

  /** A separator, a name and `=` in front of a value are the separator in front of the field. */
  lemma FieldAfter(sep: string, name: string, value: string)
    ensures sep + name + "=" + value == sep + Field(name, value)
  {
  }

  lemma Assoc(x: string, y: string, z: string)
    ensures x + y + z == x + (y + z)
  {
  }

  /** The success URL is the site's root followed by that query string. */
  lemma SuccessUrlIsRootAndSearch(origin: string, pendingId: string, companyName: Option<string>, enc: string -> string)
    ensures Checkout.SuccessUrl(origin, pendingId, companyName, enc)
         == origin + "/" + SuccessSearch(pendingId, enc(JsString(companyName)), Checkout.CheckoutSessionPlaceholder)
  {
    var e, sid := enc(JsString(companyName)), Checkout.CheckoutSessionPlaceholder;
    var L1, L2, L3 := "/?status=success&pendingId=", "&companyName=", "&session_id=";
    SuccessUrlLiterals();
    var head := "?" + Field("status", "success") + "&";
    var b, c, d := Field("pendingId", pendingId), Field("companyName", e), Field("session_id", sid);
    FieldAfter("/" + head, "pendingId", pendingId);
    FieldAfter("&", "companyName", e);
    FieldAfter("&", "session_id", sid);
    var t3 := L3 + sid;
    assert t3 == "&" + d;
    var t2 := L2 + e + t3;
    assert t2 == "&" + (c + "&" + d) by { Assoc(L2 + e, "&", d); Assoc("&", c, "&" + d); Assoc(c, "&", d); }
    var t1 := L1 + pendingId + t2;
    assert t1 == "/" + head + b + t2;
    var x1 := origin + L1 + pendingId;
    var x2 := x1 + L2 + e;
    assert Checkout.SuccessUrl(origin, pendingId, companyName, enc) == x2 + t3 by { Assoc(x2, L3, sid); }
    assert x2 + t3 == x1 + t2 by { Assoc(x1 + L2, e, t3); Assoc(x1, L2, e + t3); Assoc(L2, e, t3); }
    assert x1 + t2 == origin + t1 by { Assoc(origin + L1, pendingId, t2); Assoc(origin, L1, pendingId + t2); Assoc(L1, pendingId, t2); }
    assert "/" + head + b + t2 == "/" + ("?" + (Field("status", "success") + "&" + (b + t2))) by {
      Assoc("/" + head, b, t2);
      Assoc("/", head, b + t2);
      Assoc("?" + Field("status", "success"), "&", b + t2);
      Assoc("?", Field("status", "success"), "&" + (b + t2));
      Assoc(Field("status", "success"), "&", b + t2);
    }
    assert b + t2 == b + "&" + (c + "&" + d) by { Assoc(b, "&", c + "&" + d); }
    Assoc(origin, "/", SuccessSearch(pendingId, e, sid));
  }

  lemma {:induction false} ParseNamed(name: string, value: string)
    requires Lacks(name, '=')
    ensures ParsePair(Field(name, value)) == (name, value)
  {
    var piece := Field(name, value);
    assert piece[|name|] == '=';
    assert forall j :: 0 <= j < |name| ==> piece[j] == name[j];
    assert piece[..|name|] == name;
    assert piece[|name| + 1..] == value;
  }

  /** `name=value` lacks `&` when neither part has one. */
  lemma NamedLacks(name: string, value: string, c: char)
    requires Lacks(name, c) && Lacks(value, c) && c != '='
    ensures Lacks(Field(name, value), c)
  {
    var piece := Field(name, value);
    assert forall j :: |name| + 1 <= j < |piece| ==> piece[j] == value[j - |name| - 1];
  }

  /** The lookup finds the first pair whose decoded name matches. */
  lemma {:induction false} LookupFirst(pairs: seq<(string, string)>, i: nat, key: string, dec: string -> string)
    requires i < |pairs| && dec(pairs[i].0) == key
    requires forall j :: 0 <= j < i ==> dec(pairs[j].0) != key
    ensures Lookup(pairs, key, dec) == Some(dec(pairs[i].1))
  {
    if i > 0 {
      assert dec(pairs[0].0) != key;
      LookupFirst(pairs[1..], i - 1, key, dec);
    }
  }

  /** A parameter read from a query string whose pairs are known. */
  lemma ParamAt(search: string, pairs: seq<(string, string)>, i: nat, key: string, dec: string -> string)
    requires Pairs(SplitOn(QueryOf(search), '&')) == pairs
    requires i < |pairs| && dec(pairs[i].0) == key
    requires forall j :: 0 <= j < i ==> dec(pairs[j].0) != key
    ensures Param(search, key, dec) == Some(dec(pairs[i].1))
  {
    LookupFirst(pairs, i, key, dec);
  }

  /** A decoder that fixes plain text fixes the names of the success URL's parameters. */
  lemma DecodesNames(dec: string -> string)
    requires FixesPlain(dec)
    ensures dec("status") == "status" && dec("success") == "success"
    ensures dec("pendingId") == "pendingId" && dec("companyName") == "companyName"
    ensures dec("session_id") == "session_id" && dec("cancelled") == "cancelled"
  {
    assert Plain("status") && Plain("success") && Plain("pendingId");
    assert Plain("companyName") && Plain("session_id") && Plain("cancelled");
  }

  /** A first piece without the separator splits off on its own. */
  lemma SplitFirst(a: string, rest: string, c: char)
    requires Lacks(a, c)
    ensures SplitOn(a + [c] + rest, c) == [a] + SplitOn(rest, c)
  {
    var s := a + [c] + rest;
    assert s[|a|] == c;
    assert FirstOf(s, c) == Some(|a|) by {
      forall j | 0 <= j < |a| ensures s[j] != c { assert s[j] == a[j]; }
    }
    assert s[..|a|] == a;
    assert s[|a| + 1..] == rest;
  }

  /** Four pieces without `&`, joined by `&`, split back into the four. */
  lemma SplitFour(a: string, b: string, c: string, d: string)
    requires Lacks(a, '&') && Lacks(b, '&') && Lacks(c, '&') && Lacks(d, '&')
    ensures SplitOn(a + "&" + (b + "&" + (c + "&" + d)), '&') == [a, b, c, d]
  {
    SplitFirst(c, d, '&');
    assert FirstOf(d, '&').None?;
    SplitFirst(b, c + "&" + d, '&');
    SplitFirst(a, b + "&" + (c + "&" + d), '&');
  }

  /** A non-empty first piece contributes its pair first. */
  lemma PairsFirst(piece: string, rest: seq<string>)
    requires piece != ""
    ensures Pairs([piece] + rest) == [ParsePair(piece)] + Pairs(rest)
  {
    assert ([piece] + rest)[1..] == rest;
  }

  /** Four `name=value` pieces parse into their four pairs. */
  lemma PairsFour(n1: string, v1: string, n2: string, v2: string, n3: string, v3: string, n4: string, v4: string)
    requires Lacks(n1, '=') && Lacks(n2, '=') && Lacks(n3, '=') && Lacks(n4, '=')
    ensures Pairs([Field(n1, v1), Field(n2, v2), Field(n3, v3), Field(n4, v4)]) == [(n1, v1), (n2, v2), (n3, v3), (n4, v4)]
  {
    var p1, p2, p3, p4 := Field(n1, v1), Field(n2, v2), Field(n3, v3), Field(n4, v4);
    ParseNamed(n1, v1);
    ParseNamed(n2, v2);
    ParseNamed(n3, v3);
    ParseNamed(n4, v4);
    assert |p1| > 0 && |p2| > 0 && |p3| > 0 && |p4| > 0;
    PairsFirst(p4, []);
    assert Pairs([p4]) == [(n4, v4)];
    PairsFirst(p3, [p4]);
    assert Pairs([p3, p4]) == [(n3, v3), (n4, v4)];
    PairsFirst(p2, [p3, p4]);
    assert Pairs([p2, p3, p4]) == [(n2, v2), (n3, v3), (n4, v4)];
    PairsFirst(p1, [p2, p3, p4]);
    assert [p1] + [p2, p3, p4] == [p1, p2, p3, p4];
  }

  /** Dropping the leading `?`. */
  lemma QueryOfMarked(query: string)
    ensures QueryOf("?" + query) == query
  {
    assert ("?" + query)[0] == '?';
  }

  /** The success URL's query string, read as four pairs. */
  lemma SuccessPairs(pendingId: string, encodedName: string, sessionId: string)
    requires Lacks(pendingId, '&') && Lacks(encodedName, '&') && Lacks(sessionId, '&')
    ensures Pairs(SplitOn(QueryOf(SuccessSearch(pendingId, encodedName, sessionId)), '&'))
         == SuccessPairList(pendingId, encodedName, sessionId)
  {
    var a := Field("status", "success");
    var b := Field("pendingId", pendingId);
    var c := Field("companyName", encodedName);
    var d := Field("session_id", sessionId);
    QueryOfMarked(a + "&" + (b + "&" + (c + "&" + d)));
    NamesLack();
    NamedLacks("status", "success", '&');
    NamedLacks("pendingId", pendingId, '&');
    NamedLacks("companyName", encodedName, '&');
    NamedLacks("session_id", sessionId, '&');
    SplitFour(a, b, c, d);
    PairsFour("status", "success", "pendingId", pendingId, "companyName", encodedName, "session_id", sessionId);
  }

  lemma NamesLack()
    ensures Lacks("status", '&') && Lacks("success", '&') && Lacks("pendingId", '&')
    ensures Lacks("companyName", '&') && Lacks("session_id", '&')
    ensures Lacks("status", '=') && Lacks("pendingId", '=') && Lacks("companyName", '=') && Lacks("session_id", '=')
  {
  }

  /** The four pairs of the success URL's query string. */
  function SuccessPairList(pendingId: string, encodedName: string, sessionId: string): seq<(string, string)> {
    [("status", "success"), ("pendingId", pendingId), ("companyName", encodedName), ("session_id", sessionId)]
  }

  lemma ReadStatus(pendingId: string, encodedName: string, sessionId: string, dec: string -> string)
    requires Lacks(pendingId, '&') && Lacks(encodedName, '&') && Lacks(sessionId, '&')
    requires dec("status") == "status" && dec("success") == "success"
    ensures Param(SuccessSearch(pendingId, encodedName, sessionId), "status", dec) == Some("success")
  {
    SuccessPairs(pendingId, encodedName, sessionId);
    ParamAt(SuccessSearch(pendingId, encodedName, sessionId), SuccessPairList(pendingId, encodedName, sessionId), 0, "status", dec);
  }

  lemma ReadPendingId(pendingId: string, encodedName: string, sessionId: string, dec: string -> string)
    requires Lacks(pendingId, '&') && Lacks(encodedName, '&') && Lacks(sessionId, '&')
    requires dec("status") == "status" && dec("pendingId") == "pendingId"
    ensures Param(SuccessSearch(pendingId, encodedName, sessionId), "pendingId", dec) == Some(dec(pendingId))
  {
    SuccessPairs(pendingId, encodedName, sessionId);
    SuccessNamesDiffer(dec);
    ParamAt(SuccessSearch(pendingId, encodedName, sessionId), SuccessPairList(pendingId, encodedName, sessionId), 1, "pendingId", dec);
  }

  lemma ReadCompanyName(pendingId: string, encodedName: string, sessionId: string, dec: string -> string)
    requires Lacks(pendingId, '&') && Lacks(encodedName, '&') && Lacks(sessionId, '&')
    requires dec("status") == "status" && dec("pendingId") == "pendingId" && dec("companyName") == "companyName"
    ensures Param(SuccessSearch(pendingId, encodedName, sessionId), "companyName", dec) == Some(dec(encodedName))
  {
    SuccessPairs(pendingId, encodedName, sessionId);
    SuccessNamesDiffer(dec);
    ParamThird(SuccessSearch(pendingId, encodedName, sessionId), SuccessPairList(pendingId, encodedName, sessionId), "companyName", dec);
  }

  /** `get` on a key that only the third pair carries among the first three gives the third pair's value. */
  lemma ParamThird(search: string, pairs: seq<(string, string)>, key: string, dec: string -> string)
    requires Pairs(SplitOn(QueryOf(search), '&')) == pairs && |pairs| > 2
    requires dec(pairs[0].0) != key && dec(pairs[1].0) != key && dec(pairs[2].0) == key
    ensures Param(search, key, dec) == Some(dec(pairs[2].1))
  {
    forall j | 0 <= j < 2 ensures dec(pairs[j].0) != key {
      if j == 1 { assert dec(pairs[1].0) != key; }
    }
    ParamAt(search, pairs, 2, key, dec);
  }

  /** The decoded names of the success fields differ from each other. */
  lemma SuccessNamesDiffer(dec: string -> string)
    requires dec("status") == "status" && dec("pendingId") == "pendingId"
    ensures dec("status") != "pendingId" && dec("status") != "companyName" && dec("pendingId") != "companyName"
  {
    assert |"status"| == 6 && |"pendingId"| == 9 && |"companyName"| == 11;
  }

  /**
    Reading the success URL's query string back yields the status, the pending
    id and the encoded company name, decoded, whenever none of the three values
    holds a `&`.
  */
  lemma SuccessSearchRoundTrip(pendingId: string, encodedName: string, sessionId: string,
                               dec: string -> string)
    requires Lacks(pendingId, '&') && Lacks(encodedName, '&') && Lacks(sessionId, '&')
    requires FixesPlain(dec)
    ensures Param(SuccessSearch(pendingId, encodedName, sessionId), "status", dec) == Some("success")
    ensures Param(SuccessSearch(pendingId, encodedName, sessionId), "pendingId", dec) == Some(dec(pendingId))
    ensures Param(SuccessSearch(pendingId, encodedName, sessionId), "companyName", dec) == Some(dec(encodedName))
  {
    DecodesNames(dec);
    ReadStatus(pendingId, encodedName, sessionId, dec);
    ReadPendingId(pendingId, encodedName, sessionId, dec);
    ReadCompanyName(pendingId, encodedName, sessionId, dec);
  }

  /**
    A paid checkout returns to the success page: the redirect's query string
    routes to it with the pending id and the company name the session was
    created with, whenever the decoder undoes the encoder on that name.
  */
  lemma CheckoutReturnsToSuccessPage(pendingId: string, companyName: string, sessionId: string,
                                     enc: string -> string, dec: string -> string)
    requires pendingId != "" && companyName != "" && Plain(pendingId)
    requires Lacks(enc(companyName), '&') && Lacks(sessionId, '&')
    requires FixesPlain(dec) && dec(enc(companyName)) == companyName
    ensures SuccessRoute(SuccessSearch(pendingId, enc(JsString(Some(companyName))), sessionId), dec)
         == Some((pendingId, companyName))
  {
    assert Lacks(pendingId, '&') by {
      assert forall i :: 0 <= i < |pendingId| ==> IsWordChar(pendingId[i]);
    }
    SuccessSearchRoundTrip(pendingId, enc(companyName), sessionId, dec);
  }

  /** The cancel URL is the site's root followed by `?status=cancelled`. */
  lemma CancelUrlIsRootAndSearch(origin: string)
    ensures Checkout.CancelUrl(origin) == origin + "/" + ("?" + Field("status", "cancelled"))
  {
    assert "/?status=cancelled" == "/" + ("?" + Field("status", "cancelled"));
  }

  /** The cancel redirect does not route to the success page. */
  lemma CancelReturnsToForm(dec: string -> string)
    requires FixesPlain(dec)
    ensures SuccessRoute("?" + Field("status", "cancelled"), dec).None?
  {
    var piece := Field("status", "cancelled");
    QueryOfMarked(piece);
    assert Lacks("status", '&') && Lacks("cancelled", '&') && Lacks("status", '=');
    NamedLacks("status", "cancelled", '&');
    assert SplitOn(piece, '&') == [piece] by {
      assert FirstOf(piece, '&').None?;
    }
    ParseNamed("status", "cancelled");
    PairsFirst(piece, []);
    DecodesNames(dec);
    LookupFirst([("status", "cancelled")], 0, "status", dec);
  }

  // ---------------------------------------------------------------------------
  // Choosing the view

  datatype View =
    | SuccessView(pendingId: string, companyName: string)
    | LoadingView(progress: int, statusMessage: string, companyName: string)
    | PreviewView(data: Gemini.Json, images: Generator.GeneratedImages)
    | FormView(banner: Option<string>)

  class AppState {
    var lastUsedName: string
    const generator: Generator.WebsiteGenerator

    ghost predicate Valid()
      reads this, generator
    {
      generator.Valid()
    }

    constructor()
      ensures Valid() && lastUsedName == "" && fresh(generator)
      ensures !generator.isGenerating && generator.generatedData.None? && generator.error.None?
    {
      lastUsedName := "";
      generator := new Generator.WebsiteGenerator();
    }

    /** `generatedData && generatedImages`: both results stored, and the content truthy. */
    predicate HasResults()
      reads generator
    {
      && generator.generatedData.Some? && Gemini.JsTruthy(generator.generatedData.value)
      && generator.generatedImages.Some?
    }

    /**
      The view without the success route: loader, preview, or the form with a
      banner for a non-empty error. Content that parsed to a falsy value
      (`null`, `false`, `0`, `""`) shows the form.
    */
    function GeneratorView(): (v: View)
      reads this, generator
      requires Valid()
      ensures generator.isGenerating ==>
        v == LoadingView(generator.ShownProgress(), generator.statusMessage, lastUsedName)
      ensures !generator.isGenerating && HasResults() ==>
        v == PreviewView(generator.generatedData.value, generator.generatedImages.value)
      ensures !generator.isGenerating && !HasResults() ==> v.FormView?
      ensures v.FormView? ==> (v.banner.Some? <==> Truthy(generator.error))
    {
      if generator.isGenerating then LoadingView(generator.ShownProgress(), generator.statusMessage, lastUsedName)
      else if HasResults() then
        PreviewView(generator.generatedData.value, generator.generatedImages.value)
      else FormView(if Truthy(generator.error) then generator.error else None)
    }

    /** The rendered view: the success route first, whatever the generator's state. */
    function ViewFor(search: string, dec: string -> string): (v: View)
      reads this, generator
      requires Valid()
      ensures SuccessRoute(search, dec).Some? ==>
        v == SuccessView(SuccessRoute(search, dec).value.0, SuccessRoute(search, dec).value.1)
      ensures SuccessRoute(search, dec).None? ==> v == GeneratorView()
    {
      match SuccessRoute(search, dec)
      case Some((p, c)) => SuccessView(p, c)
      case None => GeneratorView()
    }

    /** `handleGenerate`: remember the name, then run the generator; afterwards the preview or the form with the error. */
    method HandleGenerate(form: Generator.FormData, content: Result<Gemini.Json, string>,
                          hero: Generator.ImageTiers, value: Generator.ImageTiers, cred: Generator.ImageTiers,
                          during: seq<Generator.TimerEvent>, hold: seq<Generator.TimerEvent>)
      requires Valid()
      modifies this`lastUsedName, generator
      ensures Valid() && lastUsedName == form.companyName
      ensures var joined := Generator.JoinAll(content, hero.generated, value.generated, cred.generated);
        && (joined.Ok? && Gemini.JsTruthy(content.value) ==>
              GeneratorView() == PreviewView(content.value,
                Generator.ImagesFor(form.industry, hero.generated.value, value.generated.value,
                                    cred.generated.value, hero, value, cred)))
        && (joined.Ok? && !Gemini.JsTruthy(content.value) ==> GeneratorView() == FormView(None))
        && (joined.Err? ==> GeneratorView() == FormView(Some(Generator.ReadableError(joined.error))))
    {
      lastUsedName := form.companyName;
      generator.GenerateWebsite(form, content, hero, value, cred, during, hold);
    }
  }
}
