/**
 * The page-side scanner: what it extracts from a post, the cache-key input it hashes, how it
 * renders a verdict, the feedback payload it builds, the union of post selectors, and the
 * per-post UI (flag attribute, injected bar, feedback dialog) as objects updated in place.
 * DOM queries are abstracted: a post's content is given as its rendered text and its anchors.
 */
module ContentScript {
  import opened Wrappers
  import opened Protocol
  import Text

  const BTN_LABEL: string := "Scan"
  const SCANNING_LABEL: string := "Scanning\U{2026}"
  const FLAG_VALUE: string := "1"
  /** Texts shorter than this are not sent for classification. */
  const MIN_TEXT_LENGTH: nat := 5

  // ----- extraction and the fingerprint input -----

  /** A hyperlink of the post: its `href` attribute and whether it lies inside the injected bar or dialog. */
  datatype Anchor = Anchor(href: string, inInjectedUi: bool)

  /**
   * A post as extraction sees it: the `innerText` and `textContent` of its content block once the
   * injected UI has been removed from the clone ("" when absent), and the anchors of the whole post.
   */
  datatype PostContent = PostContent(innerText: string, textContent: string, anchors: seq<Anchor>)

  /** `{ text, hrefs, hashInput }`. */
  datatype PostData = PostData(text: string, hrefs: seq<string>, hashInput: string)

  /** The anchors' hrefs, in order, without those inside injected UI and without empty ones. */
  function Hrefs(anchors: seq<Anchor>): (r: seq<string>)
    ensures forall i :: 0 <= i < |r| ==> r[i] != ""
    ensures forall h :: h in r <==> exists a :: a in anchors && !a.inInjectedUi && a.href == h && h != ""
    ensures |r| <= |anchors|
  {
    if |anchors| == 0 then []
    else
      var rest := Hrefs(anchors[1..]);
      assert forall a :: a in anchors <==> a == anchors[0] || a in anchors[1..];
      if !anchors[0].inInjectedUi && anchors[0].href != "" then [anchors[0].href] + rest else rest
  }

  /** One anchor contributes its href exactly when it is outside the injected UI and non-empty. */
  lemma HrefsSingle(x: Anchor)
    ensures Hrefs([x]) == if !x.inInjectedUi && x.href != "" then [x.href] else []
  {
    assert [x][1..] == [];
  }

  /**
   * Filtering distributes over concatenation: the hrefs keep document order, and an href
   * appears once per qualifying anchor.
   */
  lemma {:induction false} HrefsAppend(a: seq<Anchor>, b: seq<Anchor>)
    ensures Hrefs(a + b) == Hrefs(a) + Hrefs(b)
    decreases |a|
  {
    if |a| == 0 {
      assert a + b == b;
    } else {
      assert (a + b)[0] == a[0];
      assert (a + b)[1..] == a[1..] + b;
      HrefsAppend(a[1..], b);
    }
  }

  /** The string hashed into the cache key: the text, a newline, then the hrefs joined by newlines. */
  function HashInput(text: string, hrefs: seq<string>): string {
    text + "\n" + Text.Join(hrefs, "\n")
  }

  /** `extractPostData(article)`. */
  function ExtractPostData(c: PostContent): PostData {
    var text := Text.Trim(if c.innerText != "" then c.innerText else c.textContent);
    var hrefs := Hrefs(c.anchors);
    PostData(text, hrefs, HashInput(text, hrefs))
  }

  /**
   * The extracted text is the chosen rendering with only white space cut from its ends and
   * none left at them; the hrefs are the non-empty ones outside the injected UI; the
   * fingerprint input is the text, a newline, then the hrefs joined by newlines.
   */
  lemma ExtractPostDataShape(c: PostContent)
    ensures var d := ExtractPostData(c);
      var shown := if c.innerText != "" then c.innerText else c.textContent;
      && Text.IsTrimmingOf(d.text, shown)
      && (d.text == [] || (!Text.IsJsSpace(d.text[0]) && !Text.IsJsSpace(d.text[|d.text| - 1])))
      && (forall h :: h in d.hrefs <==> exists a :: a in c.anchors && !a.inInjectedUi && a.href == h && h != "")
      && |d.hashInput| > |d.text| && d.hashInput[..|d.text|] == d.text && d.hashInput[|d.text|] == '\n'
      && d.hrefs == Hrefs(c.anchors)
      && d.hashInput == d.text + "\n" + Text.Join(d.hrefs, "\n")
  {
    Text.TrimShape(if c.innerText != "" then c.innerText else c.textContent);
  }

  /** A post whose visible text has no white space at either end and no links is extracted verbatim. */
  lemma ExtractKeepsCleanText(text: string)
    requires text != [] && !Text.IsJsSpace(text[0]) && !Text.IsJsSpace(text[|text| - 1])
    ensures ExtractPostData(PostContent(text, "", [])) == PostData(text, [], HashInput(text, []))
  {
    Text.TrimUntrimmed(text);
  }

  predicate NoNewline(s: string) {
    forall k :: 0 <= k < |s| ==> s[k] != '\n'
  }

  /** `s.indexOf("\n")`, or `|s|` when there is none. */
  function IndexOfNewline(s: string): (i: nat)
    ensures i <= |s|
  {
    if |s| == 0 || s[0] == '\n' then 0 else 1 + IndexOfNewline(s[1..])
  }

  lemma {:induction false} IndexOfNewlineAfter(x: string, rest: string)
    requires NoNewline(x)
    ensures IndexOfNewline(x + rest) == |x| + IndexOfNewline(rest)
  {
    if |x| > 0 {
      assert (x + rest)[1..] == x[1..] + rest;
      IndexOfNewlineAfter(x[1..], rest);
    } else {
      assert x + rest == rest;
    }
  }

  /** Two strings without newlines, each followed by a newline: equal concatenations split equally. */
  lemma SplitAtFirstNewline(x1: string, r1: string, x2: string, r2: string)
    requires NoNewline(x1) && NoNewline(x2)
    requires x1 + "\n" + r1 == x2 + "\n" + r2
    ensures x1 == x2 && r1 == r2
  {
    var s := x1 + "\n" + r1;
    IndexOfNewlineAfter(x1, "\n" + r1);
    IndexOfNewlineAfter(x2, "\n" + r2);
    assert IndexOfNewline("\n" + r1) == 0 && IndexOfNewline("\n" + r2) == 0;
    assert x1 + ("\n" + r1) == s && x2 + ("\n" + r2) == s;
    assert x1 == s[..|x1|];
    assert x2 == s[..|x2|];
    assert r1 == s[|x1| + 1..];
    assert r2 == s[|x2| + 1..];
  }

  /** The join of a non-empty list starts with its first part, ended by a newline exactly when more parts follow. */
  lemma JoinHead(p: seq<string>)
    requires |p| >= 1 && forall i :: 0 <= i < |p| ==> NoNewline(p[i])
    ensures |p| == 1 ==> Text.Join(p, "\n") == p[0]
    ensures |p| >= 2 ==> Text.Join(p, "\n") == p[0] + "\n" + Text.Join(p[1..], "\n")
    ensures IndexOfNewline(Text.Join(p, "\n")) == |p[0]|
    ensures |p| == 1 <==> |Text.Join(p, "\n")| == |p[0]|
  {
    if |p| == 1 {
      IndexOfNewlineAfter(p[0], "");
      assert p[0] + "" == p[0];
    } else {
      IndexOfNewlineAfter(p[0], "\n" + Text.Join(p[1..], "\n"));
      assert Text.Join(p, "\n") == p[0] + ("\n" + Text.Join(p[1..], "\n"));
    }
  }

  /** Joining non-empty, newline-free parts with "\n" loses nothing: equal joins come from equal lists. */
  lemma {:induction false} JoinInjective(p1: seq<string>, p2: seq<string>)
    requires forall i :: 0 <= i < |p1| ==> p1[i] != "" && NoNewline(p1[i])
    requires forall i :: 0 <= i < |p2| ==> p2[i] != "" && NoNewline(p2[i])
    requires Text.Join(p1, "\n") == Text.Join(p2, "\n")
    ensures p1 == p2
    decreases |p1|
  {
    if |p1| == 0 || |p2| == 0 {
      if |p1| > 0 { JoinHead(p1); }
      if |p2| > 0 { JoinHead(p2); }
    } else {
      JoinHead(p1);
      JoinHead(p2);
      var j := Text.Join(p1, "\n");
      assert p1[0] == j[..|p1[0]|] && p2[0] == j[..|p2[0]|];
      if |p1| >= 2 && |p2| >= 2 {
        SplitAtFirstNewline(p1[0], Text.Join(p1[1..], "\n"), p2[0], Text.Join(p2[1..], "\n"));
        JoinInjective(p1[1..], p2[1..]);
        assert p1 == [p1[0]] + p1[1..];
        assert p2 == [p2[0]] + p2[1..];
      }
    }
  }

  /**
   * The fingerprint input determines the text and the href list, provided the text and the
   * hrefs contain no newline (hrefs are never empty).
   */
  lemma HashInputInjective(t1: string, h1: seq<string>, t2: string, h2: seq<string>)
    requires NoNewline(t1) && NoNewline(t2)
    requires forall i :: 0 <= i < |h1| ==> h1[i] != "" && NoNewline(h1[i])
    requires forall i :: 0 <= i < |h2| ==> h2[i] != "" && NoNewline(h2[i])
    requires HashInput(t1, h1) == HashInput(t2, h2)
    ensures t1 == t2 && h1 == h2
  {
    SplitAtFirstNewline(t1, Text.Join(h1, "\n"), t2, Text.Join(h2, "\n"));
    JoinInjective(h1, h2);
  }

  /** Without that proviso the input is ambiguous: a text that itself holds a newline collides. */
  lemma HashInputCollision()
    ensures HashInput("a\nb", ["c"]) == HashInput("a", ["b", "c"])
  {
  }

  // ----- rendering -----

  /** A chip's `className` and `textContent`. */
  datatype Chip = Chip(cls: string, text: string)

  const IDLE_CHIP: Chip := Chip("lfpd-chip lfpd-chip-idle", "\U{2014}")
  const LOADING_CHIP: Chip := Chip("lfpd-chip lfpd-chip-loading", "\U{2026}")
  const NO_TEXT_CHIP: Chip := Chip("lfpd-chip lfpd-chip-warn", "No text")
  const ERROR_CHIP: Chip := Chip("lfpd-chip lfpd-chip-error", "Error")
  const UNKNOWN_CHIP: Chip := Chip("lfpd-chip lfpd-chip-warn", "Unknown")
  const FAKE_CLS: string := "lfpd-chip lfpd-chip-fake"
  const REAL_CLS: string := "lfpd-chip lfpd-chip-real"

  /** `result?.label ?? result?.result?.label ?? ""`. */
  function LabelOf(r: ServerJson): string {
    if r.fields.labelText.Some? then r.fields.labelText.value
    else if r.result.Some? && r.result.value.labelText.Some? then r.result.value.labelText.value
    else ""
  }

  /** `result?.prob_fake ?? result?.result?.prob_fake ?? 0`. */
  function ProbFakeOf(r: ServerJson): real {
    if r.fields.probFake.Some? then r.fields.probFake.value
    else if r.result.Some? && r.result.value.probFake.Some? then r.result.value.probFake.value
    else 0.0
  }

  /** The probability the chip shows: `probFake` for "fake", `1 - probFake` otherwise. */
  function Confidence(r: ServerJson): real {
    if LabelOf(r) == "fake" then ProbFakeOf(r) else 1.0 - ProbFakeOf(r)
  }

  /**
   * The chip's probability is that of the label it names: `probFake` for "fake", its
   * complement otherwise; a probability in [0, 1] gives a confidence in [0, 1].
   */
  lemma ConfidenceOfLabel(r: ServerJson)
    ensures LabelOf(r) == "fake" ==> Confidence(r) == ProbFakeOf(r)
    ensures LabelOf(r) != "fake" ==> Confidence(r) == 1.0 - ProbFakeOf(r)
    ensures 0.0 <= ProbFakeOf(r) <= 1.0 ==> 0.0 <= Confidence(r) <= 1.0
  {
  }

  /** `Math.round(x * 100)` on exact reals. */
  function Percent(x: real): (n: int)
    ensures n as real - 0.5 <= x * 100.0 < n as real + 0.5
  {
    (x * 100.0 + 0.5).Floor
  }

  /** A probability in [0, 1] renders as a percentage in 0..100. */
  lemma PercentInRange(x: real)
    requires 0.0 <= x <= 1.0
    ensures 0 <= Percent(x) <= 100
  {
  }

  /**
   * `renderResult(chip, result)`: "fake" and "real" get their own class and a percentage of
   * the matching probability; any other label (missing included) gives "Unknown".
   */
  function RenderResult(r: ServerJson): (chip: Chip)
    ensures chip.cls == FAKE_CLS <==> LabelOf(r) == "fake"
    ensures chip.cls == REAL_CLS <==> LabelOf(r) == "real"
    ensures chip == UNKNOWN_CHIP <==> LabelOf(r) != "fake" && LabelOf(r) != "real"
    ensures LabelOf(r) == "fake" ==> chip.text == "Fake \U{2022} " + Text.IntToString(Percent(ProbFakeOf(r))) + "%"
    ensures LabelOf(r) == "real" ==> chip.text == "Real \U{2022} " + Text.IntToString(Percent(1.0 - ProbFakeOf(r))) + "%"
    ensures chip != IDLE_CHIP && chip != LOADING_CHIP && chip != NO_TEXT_CHIP && chip != ERROR_CHIP
  {
    var verdict := LabelOf(r);
    var conf := Percent(Confidence(r));
    if verdict == "fake" then Chip(FAKE_CLS, "Fake \U{2022} " + Text.IntToString(conf) + "%")
    else if verdict == "real" then Chip(REAL_CLS, "Real \U{2022} " + Text.IntToString(conf) + "%")
    else UNKNOWN_CHIP
  }

  /**
   * Each field falls back on its own: the top-level value when present, else the nested
   * `result` object's, else "" for the label and 0 for the probability.
   */
  lemma FieldFallback(r: ServerJson)
    ensures r.fields.labelText.Some? ==> LabelOf(r) == r.fields.labelText.value
    ensures r.fields.labelText.None? && r.result.Some? && r.result.value.labelText.Some? ==>
      LabelOf(r) == r.result.value.labelText.value
    ensures r.fields.labelText.None? && (r.result.None? || r.result.value.labelText.None?) ==> LabelOf(r) == ""
    ensures r.fields.probFake.Some? ==> ProbFakeOf(r) == r.fields.probFake.value
    ensures r.fields.probFake.None? && r.result.Some? && r.result.value.probFake.Some? ==>
      ProbFakeOf(r) == r.result.value.probFake.value
    ensures r.fields.probFake.None? && (r.result.None? || r.result.value.probFake.None?) ==> ProbFakeOf(r) == 0.0
  {
  }

  /** With a label nowhere, the chip is "Unknown" whatever the probabilities. */
  lemma RenderWithoutLabel(r: ServerJson)
    requires r.fields.labelText.None? && (r.result.None? || r.result.value.labelText.None?)
    ensures RenderResult(r) == UNKNOWN_CHIP
  {
    FieldFallback(r);
  }

  /** A label of the top-level object wins; the nested `result` object only fills in what is missing. */
  lemma RenderFallsBackToNested(v: Verdict, nested: Verdict)
    requires v.labelText.None? && v.probFake.None?
    ensures RenderResult(ServerJson(v, Some(nested))) == RenderResult(ServerJson(nested, None))
  {
    var top, flat := ServerJson(v, Some(nested)), ServerJson(nested, None);
    assert LabelOf(top) == LabelOf(flat) && ProbFakeOf(top) == ProbFakeOf(flat);
    assert Confidence(top) == Confidence(flat);
  }

  /** `{label: "fake", prob_fake: 0.92}` renders as "Fake • 92%". */
  lemma RenderFakeExample()
    ensures RenderResult(ServerJson(Verdict(Some("fake"), Some(0.92), None, None), None))
      == Chip(FAKE_CLS, "Fake \U{2022} 92%")
  {
    assert Percent(0.92) == 92;
    assert Text.NatToString(92) == "92";
  }

  // ----- feedback payload -----

  /** The two answers the feedback dialog offers. */
  datatype UserChoice = CorrectIsReal | CorrectIsFake {
    function Label(): string {
      match this
      case CorrectIsReal => "real"
      case CorrectIsFake => "fake"
    }
  }

  /** `sendFeedback(result, userLabel, text)`'s payload; it reads the top-level fields only. */
  function FeedbackPayloadFor(r: ServerJson, choice: UserChoice, text: string): (p: FeedbackPayload)
    ensures p.text == Some(text) && p.ourLabel == r.fields.labelText && p.userLabel == Some(choice.Label())
    ensures p.probFake == Some(if r.fields.probFake.Some? then r.fields.probFake.value else 0.0)
    ensures p.modelVersion.Some? && p.modelVersion.value != ""
    ensures r.fields.modelVersion.None? || r.fields.modelVersion == Some("") ==> p.modelVersion == Some("v1")
    ensures r.fields.modelVersion.Some? && r.fields.modelVersion.value != "" ==> p.modelVersion == r.fields.modelVersion
    ensures p.signals == Some(r.fields.topSignals.GetOr([]))
  {
    var mv := r.fields.modelVersion.GetOr("");
    FeedbackPayload(Some(text), r.fields.labelText, Some(choice.Label()),
                    Some(r.fields.probFake.GetOr(0.0)),
                    Some(if mv != "" then mv else "v1"),
                    Some(r.fields.topSignals.GetOr([])))
  }

  // ----- discovering posts -----

  predicate NoDuplicates<T(==)>(s: seq<T>) {
    forall i, j :: 0 <= i < j < |s| ==> s[i] != s[j]
  }

  /** `Array.from(new Set(s))`: each element once, at its first position's turn. */
  function Distinct<T(==)>(s: seq<T>): (r: seq<T>)
    ensures forall i :: 0 <= i < |r| ==> r[i] in s
    ensures forall i :: 0 <= i < |s| ==> s[i] in r
    ensures NoDuplicates(r)
    ensures |r| <= |s|
  {
    if |s| == 0 then []
    else
      var init := Distinct(s[..|s| - 1]);
      assert forall i :: 0 <= i < |s| - 1 ==> s[i] == s[..|s| - 1][i];
      if s[|s| - 1] in init then init else init + [s[|s| - 1]]
  }

  /** Distinct of a longer sequence extends that of its prefix, by the last element when it is new. */
  lemma DistinctExtends<T>(s: seq<T>)
    requires |s| > 0
    ensures var d := Distinct(s[..|s| - 1]);
      |d| <= |Distinct(s)| && Distinct(s)[..|d|] == d
      && (s[|s| - 1] !in s[..|s| - 1] ==> Distinct(s) == d + [s[|s| - 1]])
  {
  }

  /** Distinct keeps the order of first occurrences: an element seen first earlier comes earlier. */
  lemma {:induction false} DistinctKeepsFirstOrder<T>(s: seq<T>, i: nat, j: nat)
    requires i < j < |s|
    requires s[j] !in s[..j] && s[i] !in s[..i]
    ensures s[i] in Distinct(s) && s[j] in Distinct(s)
    ensures exists a, b :: 0 <= a < b < |Distinct(s)| && Distinct(s)[a] == s[i] && Distinct(s)[b] == s[j]
  {
    var init := s[..|s| - 1];
    var d := Distinct(init);
    DistinctExtends(s);
    if j == |s| - 1 {
      assert s[i] == init[i];
      var a :| 0 <= a < |d| && d[a] == s[i];
      assert Distinct(s)[a] == s[i] && Distinct(s)[|d|] == s[j];
    } else {
      assert init[..j] == s[..j] && init[..i] == s[..i];
      DistinctKeepsFirstOrder(init, i, j);
      var a, b :| 0 <= a < b < |d| && d[a] == s[i] && d[b] == s[j];
      assert Distinct(s)[a] == d[a] && Distinct(s)[b] == d[b];
    }
  }

  /** `getAllPosts`: the three selector results, in order, with every element once. */
  function AllPosts<T(==)>(roleArticles: seq<T>, dataUrn: seq<T>, legacy: seq<T>): (r: seq<T>)
    ensures forall i :: 0 <= i < |r| ==> r[i] in roleArticles || r[i] in dataUrn || r[i] in legacy
    ensures forall i :: 0 <= i < |roleArticles| ==> roleArticles[i] in r
    ensures forall i :: 0 <= i < |dataUrn| ==> dataUrn[i] in r
    ensures forall i :: 0 <= i < |legacy| ==> legacy[i] in r
    ensures NoDuplicates(r)
  {
    var all := roleArticles + dataUrn + legacy;
    assert forall i :: 0 <= i < |roleArticles| ==> roleArticles[i] == all[i];
    assert forall i :: 0 <= i < |dataUrn| ==> dataUrn[i] == all[|roleArticles| + i];
    assert forall i :: 0 <= i < |legacy| ==> legacy[i] == all[|roleArticles| + |dataUrn| + i];
    Distinct(roleArticles + dataUrn + legacy)
  }

  // ----- the per-post UI -----

  /** The scan state the bar shows. */
  datatype Phase = Idle | Scanning | NoText | Failed | Scored

  /** What the "Wrong?" button's handler captured: the verdict and the text that was scanned. */
  datatype FeedbackTarget = FeedbackTarget(result: ServerJson, text: string)

  /** A post element of the host page, as far as the extension touches it. */
  class Post {
    /** The `data-lfpd-injected` attribute. */
    var flag: Option<string>
    /** Injected bars, in insertion order. */
    var bars: seq<Bar>
    /** Feedback dialogs currently attached, in document order. */
    var dialogs: seq<FeedbackTarget>

    /** A post as the page renders it: never touched by the extension yet. */
    constructor()
      ensures flag == None && bars == [] && dialogs == []
    {
      flag := None;
      bars := [];
      dialogs := [];
    }

    /** At most one bar, present exactly when the flag is set, and at most one dialog. */
    predicate Valid()
      reads this
    {
      && |bars| <= 1
      && (flag == Some(FLAG_VALUE) <==> |bars| == 1)
      && (forall b :: b in bars ==> b.post == this)
      && |dialogs| <= 1
    }

    /** `openFeedbackDialog`: removes the existing dialog, if any, then appends the new one. */
    method OpenFeedbackDialog(t: FeedbackTarget)
      requires Valid()
      modifies this
      ensures Valid()
      ensures dialogs == (if |old(dialogs)| > 0 then old(dialogs)[1..] else []) + [t]
      ensures dialogs == [t]
      ensures flag == old(flag) && bars == old(bars)
    {
      if |dialogs| > 0 {
        dialogs := dialogs[1..];
      }
      dialogs := dialogs + [t];
    }

    /** The dialog's "×" button: removes it. */
    method CloseDialog()
      requires Valid() && |dialogs| == 1
      modifies this
      ensures Valid() && dialogs == []
      ensures flag == old(flag) && bars == old(bars)
    {
      dialogs := [];
    }

    /** "Correct is REAL" / "Correct is FAKE": sends the feedback message, then removes the dialog. */
    method AnswerDialog(choice: UserChoice) returns (sent: Message)
      requires Valid() && |dialogs| == 1
      modifies this
      ensures Valid() && dialogs == []
      ensures flag == old(flag) && bars == old(bars)
      ensures sent == FeedbackMsg(Some(FeedbackPayloadFor(old(dialogs)[0].result, choice, old(dialogs)[0].text)))
    {
      var t := dialogs[0];
      sent := FeedbackMsg(Some(FeedbackPayloadFor(t.result, choice, t.text)));
      dialogs := [];
    }
  }

  /** The injected bar: the Scan button, the chip and the "Wrong?" button. */
  class Bar {
    /** The post this bar was injected into. */
    const post: Post
    var btnDisabled: bool
    var btnLabel: string
    var chip: Chip
    var wrongVisible: bool
    /** The `onclick` of "Wrong?", once a scan has succeeded. */
    var wrongTarget: Option<FeedbackTarget>
    /** The text the reply callback of the scan in flight captured. */
    var pending: Option<string>

    /** The bar as `injectUi` builds it. */
    constructor(post: Post)
      ensures this.post == post
      ensures !btnDisabled && btnLabel == BTN_LABEL && chip == IDLE_CHIP
      ensures !wrongVisible && wrongTarget == None && pending == None
      ensures Valid() && Phase() == Idle
    {
      this.post := post;
      pending := None;
      btnDisabled := false;
      btnLabel := BTN_LABEL;
      chip := IDLE_CHIP;
      wrongVisible := false;
      wrongTarget := None;
    }

    function Phase(): Phase
      reads this
    {
      if chip == IDLE_CHIP then Idle
      else if chip == LOADING_CHIP then Scanning
      else if chip == NO_TEXT_CHIP then NoText
      else if chip == ERROR_CHIP then Failed
      else Scored
    }

    /**
     * The button is disabled exactly while scanning and reads "Scanning…" then, "Scan" otherwise;
     * "Wrong?" is shown only on a scored chip, with its handler set.
     */
    predicate Valid()
      reads this
    {
      && (btnDisabled <==> Phase() == Scanning)
      && btnLabel == (if btnDisabled then SCANNING_LABEL else BTN_LABEL)
      && (wrongVisible ==> Phase() == Scored && wrongTarget.Some?)
      && (Phase() == Scanning ==> pending.Some?)
    }

    /**
     * A click on Scan. A disabled button receives no click. Otherwise the bar enters the
     * scanning state; a text shorter than five characters ends it at "No text" without a
     * message; an exception while hashing or sending ends it at "Error"; else the `predict`
     * message is sent and the bar stays scanning until the reply, whose callback holds the
     * extracted text.
     */
    method Click(content: PostContent, sha256: string -> string, throws: bool) returns (sent: Option<Message>)
      requires Valid()
      modifies this
      ensures Valid() && wrongTarget == old(wrongTarget)
      ensures old(btnDisabled) ==> sent == None && unchanged(this)
      ensures !old(btnDisabled) ==> !wrongVisible
      ensures sent.None? ==> pending == old(pending)
      ensures !old(btnDisabled) && |ExtractPostData(content).text| < MIN_TEXT_LENGTH ==>
        sent == None && chip == NO_TEXT_CHIP && !btnDisabled
      ensures !old(btnDisabled) && |ExtractPostData(content).text| >= MIN_TEXT_LENGTH && throws ==>
        sent == None && chip == ERROR_CHIP && !btnDisabled
      ensures !old(btnDisabled) && |ExtractPostData(content).text| >= MIN_TEXT_LENGTH && !throws ==>
        && sent == Some(PredictMsg(Some(PredictPayload(Some(ExtractPostData(content).text),
                                                       Some(sha256(ExtractPostData(content).hashInput))))))
        && Phase() == Scanning
        && pending == Some(ExtractPostData(content).text)
    {
      if btnDisabled {
        return None;
      }
      btnDisabled := true;
      btnLabel := SCANNING_LABEL;
      chip := LOADING_CHIP;
      wrongVisible := false;

      var d := ExtractPostData(content);
      if d.text == "" || |d.text| < MIN_TEXT_LENGTH {
        chip := NO_TEXT_CHIP;
        btnDisabled := false;
        btnLabel := BTN_LABEL;
        return None;
      }
      if throws {
        chip := ERROR_CHIP;
        btnDisabled := false;
        btnLabel := BTN_LABEL;
        return None;
      }
      sent := Some(PredictMsg(Some(PredictPayload(Some(d.text), Some(sha256(d.hashInput))))));
      pending := Some(d.text);
    }

    /**
     * The `predict` reply callback of the scan in flight: a missing or `ok:false` reply shows
     * "Error" and keeps "Wrong?" hidden; an `ok` reply renders its `result` and binds "Wrong?"
     * to it and to the text that scan sent. Either way the button ends enabled, reading "Scan".
     */
    method OnPredictReply(resp: Option<Reply>)
      requires Valid() && Phase() == Scanning
      modifies this
      ensures Valid() && pending == None
      ensures !btnDisabled && btnLabel == BTN_LABEL
      ensures resp.None? || !resp.value.Ok() ==> chip == ERROR_CHIP && !wrongVisible && wrongTarget == old(wrongTarget)
      ensures resp.Some? && resp.value.Ok() ==>
        var result := if resp.value.PredictOk? then resp.value.result else EMPTY_JSON;
        chip == RenderResult(result) && wrongVisible && wrongTarget == Some(FeedbackTarget(result, old(pending).value))
    {
      var text := pending.value;
      pending := None;
      if resp.None? || !resp.value.Ok() {
        chip := ERROR_CHIP;
        btnDisabled := false;
        btnLabel := BTN_LABEL;
        return;
      }
      var result := if resp.value.PredictOk? then resp.value.result else EMPTY_JSON;
      chip := RenderResult(result);
      wrongVisible := true;
      wrongTarget := Some(FeedbackTarget(result, text));
      btnDisabled := false;
      btnLabel := BTN_LABEL;
    }

    /** A click on the visible "Wrong?" button opens the feedback dialog for the last verdict. */
    method ClickWrong()
      requires Valid() && wrongVisible && post.Valid()
      modifies post
      ensures post.Valid() && post.dialogs == [wrongTarget.value]
      ensures post.flag == old(post.flag) && post.bars == old(post.bars)
    {
      post.OpenFeedbackDialog(wrongTarget.value);
    }
  }

  /**
   * `injectUi(article)`: nothing happens to a missing post or one whose flag is already "1";
   * otherwise the flag becomes "1" and exactly one fresh bar, in its initial state, is appended.
   */
  method InjectUi(article: Post?) returns (bar: Bar?)
    requires article != null ==> article.Valid()
    modifies article
    ensures article != null ==> article.Valid()
    ensures article == null || old(article.flag) == Some(FLAG_VALUE) ==> bar == null
    ensures article != null && old(article.flag) == Some(FLAG_VALUE) ==>
      article.flag == old(article.flag) && article.bars == old(article.bars) && article.dialogs == old(article.dialogs)
    ensures article != null && old(article.flag) != Some(FLAG_VALUE) ==>
      && bar != null && fresh(bar) && bar.post == article
      && article.flag == Some(FLAG_VALUE)
      && article.bars == old(article.bars) + [bar] && |article.bars| == 1
      && article.dialogs == old(article.dialogs)
      && bar.Valid() && bar.Phase() == Idle && bar.btnLabel == BTN_LABEL && !bar.wrongVisible
  {
    if article == null || article.flag == Some(FLAG_VALUE) {
      return null;
    }
    article.flag := Some(FLAG_VALUE);
    bar := new Bar(article);
    article.bars := article.bars + [bar];
  }
}
