/** The automatic page check run after every matching screenshot: the
    anchors of the page whose `href` uses a `javascript:`, `vbscript:` or
    `data:` scheme are reported, except for a few harmless `javascript:`
    snippets. The page is given as its anchors in document order. */
module DangerousLinks {
  import opened JsStrings

  /** An `<a>` element: its rendered text and its `href` attribute, `None`
      when the attribute is absent (`getAttribute` returns null). */
  datatype Anchor = Anchor(innerText: string, href: Option<string>)

  const JavaScriptScheme: string := "javascript:"

  /** The `javascript:` bodies that are tolerated. */
  const WhitelistedCode: seq<string> := ["", "void(0)", "window.history.back()", "window.location.reload()"]

  /** `/^(javascript|vbscript|data):/.test(href)`: the test is
      case-sensitive and looks only at the start of the href. */
  predicate HasScriptScheme(href: string): (r: bool)
    ensures StartsWith(href, JavaScriptScheme) ==> r
    ensures r ==> |href| >= 5 && href[0] in "jvd" && ':' in href[..Min(|href|, 11)]
  {
    if StartsWith(href, JavaScriptScheme) then assert href[..11][10] == ':'; true
    else if StartsWith(href, "vbscript:") then assert href[..9][8] == ':'; true
    else if StartsWith(href, "data:") then assert href[..5][4] == ':'; true
    else false
  }

  /** Whether `s` holds one of the line terminators, the characters that
      the regular-expression `.` does not match. */
  predicate HasLineTerminator(s: string) {
    '\n' in s || '\r' in s || '\U{2028}' in s || '\U{2029}' in s
  }

  predicate IsAllSemicolons(s: string) {
    forall i :: 0 <= i < |s| ==> s[i] == ';'
  }

  /** What the lazy group of `(.*?);*$` captures: the text with its whole
      trailing run of semicolons removed. */
  function StripTrailingSemicolons(s: string): (r: string)
    ensures |r| <= |s| && r == s[..|r|]
    ensures IsAllSemicolons(s[|r|..])
    ensures r == [] || r[|r| - 1] != ';'
  {
    if s != [] && s[|s| - 1] == ';' then
      var r := StripTrailingSemicolons(s[..|s| - 1]);
      assert s[|r|..] == s[..|s| - 1][|r|..] + [';'];
      r
    else s
  }

  /** The captured group of `/^javascript:(.*?);*$/.exec(href)`, `None` when
      there is no match: not a `javascript:` URL, or a body that spans a
      line terminator. */
  function JavaScriptCode(href: string): (m: Option<string>)
    ensures m.Some? ==> StartsWith(href, JavaScriptScheme)
    ensures StartsWith(href, JavaScriptScheme) && !HasLineTerminator(href[|JavaScriptScheme|..]) ==> m.Some?
    ensures m.Some? ==> m.value == [] || m.value[|m.value| - 1] != ';'
  {
    if !StartsWith(href, JavaScriptScheme) then None
    else
      var body := href[|JavaScriptScheme|..];
      if HasLineTerminator(body) then None
      else Some(StripTrailingSemicolons(body))
  }

  /** `isWhitelistedJavaScript`: only `javascript:` URLs whose body, less
      its trailing semicolons, is listed; every listed body is accepted. */
  predicate IsWhitelistedJavaScript(href: string): (r: bool)
    ensures r ==> StartsWith(href, JavaScriptScheme) && StripTrailingSemicolons(href[|JavaScriptScheme|..]) in WhitelistedCode
    ensures StartsWith(href, JavaScriptScheme) && href[|JavaScriptScheme|..] in WhitelistedCode ==> r
  {
    match JavaScriptCode(href)
    case None => false
    case Some(code) => code in WhitelistedCode
  }

  /** The condition under which an anchor is reported. A missing `href` is
      tested as the text "null", which has no script scheme. */
  predicate IsDangerous(href: Option<string>): (r: bool)
    ensures r ==> href.Some? && HasScriptScheme(href.value)
    ensures href.Some? && (StartsWith(href.value, "vbscript:") || StartsWith(href.value, "data:")) ==> r
  {
    href.Some? && HasScriptScheme(href.value) && !IsWhitelistedJavaScript(href.value)
  }

  /** The entry reported for a flagged anchor. */
  function Describe(a: Anchor): (r: string)
    requires a.href.Some?
    ensures |r| > |a.innerText| + |a.href.value| && r[..|a.innerText|] == a.innerText
    ensures r[|r| - |a.href.value| - 1..] == a.href.value + "]"
  {
    a.innerText + " - [href = " + a.href.value + "]"
  }

  /** The entries of the scan, in document order. */
  function DangerousLinkReport(anchors: seq<Anchor>): (r: seq<string>)
    ensures |r| <= |anchors|
  {
    if anchors == [] then []
    else
      var last := anchors[|anchors| - 1];
      DangerousLinkReport(anchors[..|anchors| - 1]) + (if IsDangerous(last.href) then [Describe(last)] else [])
  }

  /** The loop of the in-page scan: walk the anchors and push one entry per
      dangerous one. */
  method CheckForDangerousLinks(anchors: seq<Anchor>) returns (result: seq<string>)
    ensures result == DangerousLinkReport(anchors)
  {
    result := [];
    var i := 0;
    while i != |anchors|
      invariant 0 <= i <= |anchors|
      invariant result == DangerousLinkReport(anchors[..i])
    {
      assert anchors[..i + 1][..i] == anchors[..i];
      var element := anchors[i];
      if IsDangerous(element.href) {
        result := result + [Describe(element)];
      }
      i := i + 1;
    }
    assert anchors[..i] == anchors;
  }

  /** The page passes (the serialised list is `"[]"`) exactly when no anchor
      is dangerous. */
  lemma {:induction false} ReportEmptyIff(anchors: seq<Anchor>)
    ensures DangerousLinkReport(anchors) == [] <==> forall i :: 0 <= i < |anchors| ==> !IsDangerous(anchors[i].href)
  {
    if anchors != [] {
      var init := anchors[..|anchors| - 1];
      ReportEmptyIff(init);
      assert forall i :: 0 <= i < |init| ==> init[i] == anchors[i];
    }
  }

  /** The report of two stretches of a page is the report of the first
      followed by that of the second. */
  lemma {:induction false} ReportAppend(a: seq<Anchor>, b: seq<Anchor>)
    ensures DangerousLinkReport(a + b) == DangerousLinkReport(a) + DangerousLinkReport(b)
  {
    if b == [] {
      assert a + b == a;
    } else {
      assert (a + b)[..|a + b| - 1] == a + b[..|b| - 1];
      ReportAppend(a, b[..|b| - 1]);
    }
  }

  /** Every entry describes a dangerous anchor, and every dangerous anchor
      has its entry. */
  lemma {:induction false} ReportEntries(anchors: seq<Anchor>)
    ensures forall e :: e in DangerousLinkReport(anchors) ==>
      exists i :: 0 <= i < |anchors| && IsDangerous(anchors[i].href) && e == Describe(anchors[i])
    ensures forall i :: 0 <= i < |anchors| && IsDangerous(anchors[i].href) ==>
      Describe(anchors[i]) in DangerousLinkReport(anchors)
  {
    if anchors != [] {
      var init := anchors[..|anchors| - 1];
      ReportEntries(init);
      assert forall i :: 0 <= i < |init| ==> init[i] == anchors[i];
    }
  }

  function Semicolons(k: nat): (s: string)
    ensures |s| == k && IsAllSemicolons(s)
  {
    if k == 0 then "" else Semicolons(k - 1) + ";"
  }

  /** What the group captures: the href is `javascript:`, the capture, and
      nothing but semicolons after it. */
  lemma JavaScriptCodeCapture(href: string)
    requires JavaScriptCode(href).Some?
    ensures exists k: nat :: href == JavaScriptScheme + JavaScriptCode(href).value + Semicolons(k)
  {
    var body := href[|JavaScriptScheme|..];
    var code := StripTrailingSemicolons(body);
    assert JavaScriptCode(href) == Some(code);
    var rest := body[|code|..];
    AllSemicolonsAreSemicolons(rest);
    assert body == code + rest;
    assert href == JavaScriptScheme + body;
    assert href == JavaScriptScheme + code + Semicolons(|rest|);
  }

  /** A run of semicolons is `Semicolons` of its length. */
  lemma {:induction false} AllSemicolonsAreSemicolons(s: string)
    requires IsAllSemicolons(s)
    ensures s == Semicolons(|s|)
  {
    if s != [] {
      AllSemicolonsAreSemicolons(s[..|s| - 1]);
      assert s == s[..|s| - 1] + [s[|s| - 1]];
    }
  }

  /** The body of a `javascript:` URL is tolerated, with any number of
      trailing semicolons, exactly when what remains is on the list. */
  ghost predicate IsToleratedJavaScript(href: string) {
    exists code, k: nat :: code in WhitelistedCode && href == JavaScriptScheme + code + Semicolons(k)
  }

  lemma {:induction false} StripOfCodeWithSemicolons(code: string, k: nat)
    requires code == [] || code[|code| - 1] != ';'
    ensures StripTrailingSemicolons(code + Semicolons(k)) == code
  {
    if k == 0 {
      assert code + Semicolons(k) == code;
    } else {
      var s := code + Semicolons(k);
      assert s[..|s| - 1] == code + Semicolons(k - 1);
      StripOfCodeWithSemicolons(code, k - 1);
    }
  }

  /** A `javascript:` URL made of a one-line body and semicolons captures
      that body. */
  lemma CodeOfScriptWithSemicolons(code: string, k: nat)
    requires !HasLineTerminator(code)
    requires code == [] || code[|code| - 1] != ';'
    ensures JavaScriptCode(JavaScriptScheme + code + Semicolons(k)) == Some(code)
  {
    var href := JavaScriptScheme + code + Semicolons(k);
    var body := code + Semicolons(k);
    assert !HasLineTerminator(Semicolons(k)) by {
      var semis := Semicolons(k);
      assert forall c :: c in semis ==> c == ';';
    }
    assert href == JavaScriptScheme + body;
    assert href[|JavaScriptScheme|..] == body;
    StripOfCodeWithSemicolons(code, k);
  }

  /** The listed snippets span no line and do not end in a semicolon. */
  lemma ListedCodeShape(code: string)
    requires code in WhitelistedCode
    ensures !HasLineTerminator(code)
    ensures code == [] || code[|code| - 1] != ';'
  {
  }

  /** Each listed snippet, followed by any number of semicolons, is
      tolerated. */
  lemma WhitelistedWithSemicolons(code: string, k: nat)
    requires code in WhitelistedCode
    ensures IsWhitelistedJavaScript(JavaScriptScheme + code + Semicolons(k))
  {
    ListedCodeShape(code);
    CodeOfScriptWithSemicolons(code, k);
  }

  /** Only a listed snippet followed by semicolons is tolerated. */
  lemma WhitelistedShape(href: string)
    requires IsWhitelistedJavaScript(href)
    ensures IsToleratedJavaScript(href)
  {
    JavaScriptCodeCapture(href);
  }

  /** `isWhitelistedJavaScript` agrees with the plain description. */
  lemma WhitelistIff(href: string)
    ensures IsWhitelistedJavaScript(href) <==> IsToleratedJavaScript(href)
  {
    if IsWhitelistedJavaScript(href) {
      WhitelistedShape(href);
    }
    if IsToleratedJavaScript(href) {
      var code, k: nat :| code in WhitelistedCode && href == JavaScriptScheme + code + Semicolons(k);
      WhitelistedWithSemicolons(code, k);
    }
  }

  /** An href is reported exactly when it has a script scheme and is not a
      tolerated `javascript:` snippet; `vbscript:` and `data:` URLs are
      always reported. */
  lemma DangerousIff(href: string)
    ensures IsDangerous(Some(href)) <==> HasScriptScheme(href) && !IsToleratedJavaScript(href)
    ensures StartsWith(href, "vbscript:") || StartsWith(href, "data:") ==> IsDangerous(Some(href))
  {
    WhitelistIff(href);
    if StartsWith(href, "vbscript:") || StartsWith(href, "data:") {
      assert href[0] != 'j';
    }
  }

  /** A `javascript:` URL running other code is reported. */
  lemma ScriptCallIsDangerous()
    ensures IsDangerous(Some("javascript:alert(1)"))
  {
    var href := "javascript:alert(1)";
    assert href[..|JavaScriptScheme|] == JavaScriptScheme;
    var body := href[|JavaScriptScheme|..];
    assert body == "alert(1)";
    assert StripTrailingSemicolons(body) == body;
  }

  /** `javascript:void(0)` is tolerated. */
  lemma VoidIsTolerated()
    ensures !IsDangerous(Some("javascript:void(0)"))
  {
    WhitelistedWithSemicolons("void(0)", 0);
    assert JavaScriptScheme + "void(0)" + Semicolons(0) == "javascript:void(0)";
  }

  /** A tolerated snippet stays tolerated with a trailing semicolon. */
  lemma HistoryBackWithSemicolonIsTolerated()
    ensures !IsDangerous(Some(JavaScriptScheme + "window.history.back()" + ";"))
  {
    assert Semicolons(1) == ";" by { assert Semicolons(0) == ""; }
    WhitelistedWithSemicolons("window.history.back()", 1);
  }

  /** An anchor without `href` is never reported. */
  lemma MissingHrefIsSafe(innerText: string)
    ensures DangerousLinkReport([Anchor(innerText, None)]) == []
  {
    assert [Anchor(innerText, None)][..0] == [];
  }
}
