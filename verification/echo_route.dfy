/**
 * The echo endpoint of app/api/chat/route.ts: it calls no provider and
 * formats the last message of the body together with the selected model
 * and the two feature flags.
 */
module EchoRoute {
  import opened Wrappers
  import opened JsText

  /**
   * The request body.  `messages` is absent when it is not an array; each
   * element is reduced to its `content`, absent when the element is `null`
   * or has none.
   */
  datatype EchoRequest = EchoRequest(messages: Option<seq<Option<string>>>, model: Option<string>, web: bool, r1: bool)

  const ModelCaption := "نموذج: "
  const ReceivedCaption := "\nتم الاستلام: "
  const WebTag := "+ Web"
  const R1Tag := "+ R1"

  /** The `content` of the final message, or "" when there is none. */
  function LastMessage(messages: Option<seq<Option<string>>>): (last: string)
    ensures messages.None? || messages.value == [] ==> last == ""
    ensures messages.Some? && messages.value != [] && messages.value[|messages.value| - 1].Some? ==>
      last == messages.value[|messages.value| - 1].value
    ensures messages.Some? && messages.value != [] && messages.value[|messages.value| - 1].None? ==> last == ""
  {
    if messages.Some? && |messages.value| > 0 then messages.value[|messages.value| - 1].GetOr("") else ""
  }

  /** The text before the received caption: model caption, model, and the two tags, each after a space. */
  function Header(request: EchoRequest): string {
    ModelCaption + request.model.GetOr("") + " " + (if request.web then WebTag else "")
    + " " + (if request.r1 then R1Tag else "")
  }

  /** `POST /api/chat`: the echoed text. */
  function EchoText(request: EchoRequest): (text: string)
    ensures |ModelCaption| <= |text| && text[..|ModelCaption|] == ModelCaption
    ensures var tail := ReceivedCaption + LastMessage(request.messages);
      |tail| <= |text| && text[|text| - |tail|..] == tail
  {
    var text := Header(request) + ReceivedCaption + LastMessage(request.messages);
    assert text == ModelCaption + (text[|ModelCaption|..]);
    text
  }

  /** `tag` occurs somewhere in `s`. */
  predicate Contains(s: string, tag: string) {
    exists i | 0 <= i <= |s| :: OccursAt(s, tag, i)
  }

  /**
   * Where '+' can stand in the echoed text when neither the model nor the
   * last message contains one: only at the start of a tag that is present.
   */
  lemma PlusOnlyAtTags(request: EchoRequest, i: int)
    requires '+' !in request.model.GetOr("") && '+' !in LastMessage(request.messages)
    requires 0 <= i < |EchoText(request)| && EchoText(request)[i] == '+'
    ensures var w := |ModelCaption| + |request.model.GetOr("")| + 1;
      (request.web && i == w) || (request.r1 && i == w + (if request.web then |WebTag| else 0) + 1)
  {
  }

  /** An occurrence of a tag of three or more characters fixes the characters at its first and third positions. */
  lemma TagChars(s: string, tag: string, i: int)
    requires |tag| >= 3
    ensures OccursAt(s, tag, i) ==> s[i] == tag[0] && s[i + 2] == tag[2]
  {
    if OccursAt(s, tag, i) {
      assert s[i..i + |tag|] == tag;
      assert s[i] == s[i..i + |tag|][0];
      assert s[i + 2] == s[i..i + |tag|][2];
    }
  }

  /** "+ Web" appears in the echoed text exactly when `web` is truthy, given a '+'-free model and message. */
  lemma WebTagIffFlag(request: EchoRequest)
    requires '+' !in request.model.GetOr("") && '+' !in LastMessage(request.messages)
    ensures Contains(EchoText(request), WebTag) <==> request.web
  {
    var m := request.model.GetOr("");
    var text := EchoText(request);
    var w := |ModelCaption| + |m| + 1;
    var last := LastMessage(request.messages);
    assert |WebTag| == 5 && |R1Tag| == 4;
    assert WebTag[0] == '+' && WebTag[2] == 'W' && R1Tag[2] == 'R';
    if request.web {
      var rt := if request.r1 then R1Tag else "";
      assert text == (ModelCaption + m + " ") + WebTag + (" " + rt + ReceivedCaption + last);
      assert text[w..w + |WebTag|] == WebTag;
      assert OccursAt(text, WebTag, w);
    } else {
      var r := w + 1;
      forall i | 0 <= i <= |text|
        ensures !OccursAt(text, WebTag, i)
      {
        TagChars(text, WebTag, i);
        if i < |text| && text[i] == '+' {
          PlusOnlyAtTags(request, i);
          assert request.r1 && i == r;
          assert text == (ModelCaption + m + " " + " ") + R1Tag + (ReceivedCaption + last);
          assert text[r..r + |R1Tag|] == R1Tag;
          assert text[i + 2] == R1Tag[2];
        }
      }
    }
  }

  /** "+ R1" appears in the echoed text exactly when `r1` is truthy, given a '+'-free model and message. */
  lemma R1TagIffFlag(request: EchoRequest)
    requires '+' !in request.model.GetOr("") && '+' !in LastMessage(request.messages)
    ensures Contains(EchoText(request), R1Tag) <==> request.r1
  {
    var m := request.model.GetOr("");
    var text := EchoText(request);
    var w := |ModelCaption| + |m| + 1;
    var r := w + (if request.web then |WebTag| else 0) + 1;
    var wt := if request.web then WebTag else "";
    var last := LastMessage(request.messages);
    assert |WebTag| == 5 && |R1Tag| == 4;
    assert R1Tag[0] == '+' && R1Tag[2] == 'R' && WebTag[2] == 'W';
    if request.r1 {
      assert text == (ModelCaption + m + " " + wt + " ") + R1Tag + (ReceivedCaption + last);
      assert text[r..r + |R1Tag|] == R1Tag;
      assert OccursAt(text, R1Tag, r);
    } else {
      forall i | 0 <= i <= |text|
        ensures !OccursAt(text, R1Tag, i)
      {
        TagChars(text, R1Tag, i);
        if i < |text| && text[i] == '+' {
          PlusOnlyAtTags(request, i);
          assert request.web && i == w;
          var rt := if request.r1 then R1Tag else "";
          assert text == (ModelCaption + m + " ") + WebTag + (" " + rt + ReceivedCaption + last);
          assert text[w..w + |WebTag|] == WebTag;
          assert text[i + 2] == WebTag[2];
        }
      }
    }
  }
}
