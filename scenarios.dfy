/**
 * End-to-end walk-throughs that combine the page and the worker: repeated injection, a
 * short post, a scored post reported as wrong, and a server error followed by a retry.
 */
module Scenarios {
  import opened Wrappers
  import Text
  import Config
  import opened Protocol
  import opened Storage
  import opened Background
  import opened ContentScript
  import BackgroundProps

  /** Running injection twice over the same post leaves one bar. */
  method InjectTwice() {
    var post := new Post();
    var first := InjectUi(post);
    var second := InjectUi(post);
    assert first != null && second == null;
    assert post.bars == [first];
  }

  /** A three-character post goes idle, scanning, "No text" without any message. */
  method ShortPostSendsNothing(sha256: string -> string) {
    var post := new Post();
    var bar := InjectUi(post);
    var content := PostContent("abc", "", []);
    ExtractKeepsCleanText("abc");
    var sent := bar.Click(content, sha256, false);
    assert sent == None && bar.chip == NO_TEXT_CHIP && !bar.btnDisabled && bar.btnLabel == BTN_LABEL;
  }

  /** A post the classifier calls fake with 0.92 ends with the chip "Fake • 92%" and "Wrong?" shown. */
  method ScoredPost(text: string, sha256: string -> string, now: int)
    requires |text| >= MIN_TEXT_LENGTH && !Text.IsJsSpace(text[0]) && !Text.IsJsSpace(text[|text| - 1])
  {
    var st := new StorageArea();
    var port := new ResponseChannel();
    var post := new Post();
    var bar := InjectUi(post);
    var content := PostContent(text, "", []);
    ExtractKeepsCleanText(text);
    var sent := bar.Click(content, sha256, false);
    var hash := sha256(HashInput(text, []));
    assert sent == Some(PredictMsg(Some(PredictPayload(Some(text), Some(hash)))));
    var json := ServerJson(Verdict(Some("fake"), Some(0.92), None, None), None);
    BackgroundProps.PredictSuccess(st.items, text, Some(hash), now, 200, "", json);
    var fetched := HandleMessage(st, port, sent.value, now, Response(200, "", Parsed(json)));
    assert fetched.Some? && port.responses == [PredictOk(false, json, Config.DEFAULT_CONFIG)];
    bar.OnPredictReply(Some(port.responses[0]));
    RenderFakeExample();
    assert bar.chip == Chip(FAKE_CLS, "Fake \U{2022} 92%");
    assert bar.wrongVisible && !bar.btnDisabled;
    bar.ClickWrong();
    assert post.dialogs == [FeedbackTarget(json, text)];
  }

  /** An HTTP 500 from the classifier shows "Error"; the next click starts a fresh scan. */
  method ServerErrorThenRetry(text: string, sha256: string -> string, now: int)
    requires |text| >= MIN_TEXT_LENGTH && !Text.IsJsSpace(text[0]) && !Text.IsJsSpace(text[|text| - 1])
  {
    var st := new StorageArea();
    var port := new ResponseChannel();
    var post := new Post();
    var bar := InjectUi(post);
    var content := PostContent(text, "", []);
    ExtractKeepsCleanText(text);
    var sent := bar.Click(content, sha256, false);
    var hash := sha256(HashInput(text, []));
    assert sent == Some(PredictMsg(Some(PredictPayload(Some(text), Some(hash)))));
    var outcome := Response(500, "boom", Unparseable("SyntaxError"));
    BackgroundProps.PredictFailureCachesNothing(st.items, PredictPayload(Some(text), Some(hash)), now, outcome);
    var fetched := HandleMessage(st, port, sent.value, now, outcome);
    assert fetched.Some? && |port.responses| == 1 && !port.responses[0].Ok();
    bar.OnPredictReply(Some(port.responses[0]));
    assert bar.chip == ERROR_CHIP && !bar.wrongVisible && !bar.btnDisabled;
    var again := bar.Click(content, sha256, false);
    assert again == sent && bar.Phase() == Scanning;
  }
}
