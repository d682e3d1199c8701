/**
 * The poll publisher (`createTelegramPoll`): it builds a form-encoded payload of
 * four ordered fields, posts it to the messaging service's `sendPoll` endpoint,
 * and swallows whatever goes wrong with the request.
 */
module TelegramPoll {
  import opened JsModel

  /** Where the bot's credentials and destination come from (process configuration). */
  datatype Config = Config(botToken: string, chatId: string)

  /**
   * The value of one form field. `URLSearchParams.append` turns its argument into
   * a string; the encodings of `JSON.stringify` and `Number` are kept abstract.
   */
  datatype FieldValue =
    | Plain(text: string)               // a string appended as it is
    | JsonEncoded(items: seq<string>)   // JSON.stringify(options)
    | NumberValue(n: int)               // Number(correctOptionId)

  /** One `name=value` entry of a form, in insertion order. */
  datatype Field = Field(name: string, value: FieldValue)

  /** What the messaging service did with the request: it answered, or the fetch or the JSON decoding failed. */
  datatype Delivery = Delivered | RequestFailed

  /** One outbound request to the polling service, with the reply it got. */
  datatype PollRequest = PollRequest(url: string, form: seq<Field>, delivery: Delivery)

  /** The result of one call of the publisher: the request it made and how it completed. */
  datatype Publication = Publication(request: PollRequest, completion: Completion)

  const UrlPrefix: string := "https://api.telegram.org/bot"
  const UrlSuffix: string := "/sendPoll"

  /** The endpoint, with the bot credential embedded in its path. */
  function PollUrl(botToken: string): (url: string)
    ensures |url| == |UrlPrefix| + |botToken| + |UrlSuffix|
    ensures url[..|UrlPrefix|] == UrlPrefix && url[|url| - |UrlSuffix|..] == UrlSuffix
  {
    UrlPrefix + botToken + UrlSuffix
  }

  /** Reads the bot credential back out of an endpoint URL. */
  function TokenOf(url: string): string
    requires |UrlPrefix| + |UrlSuffix| <= |url|
  {
    url[|UrlPrefix|..|url| - |UrlSuffix|]
  }

  /** The endpoint determines the credential: distinct bots post to distinct URLs. */
  lemma PollUrlToken(botToken: string)
    ensures |UrlPrefix| + |UrlSuffix| <= |PollUrl(botToken)|
    ensures TokenOf(PollUrl(botToken)) == botToken
  {
    var url := PollUrl(botToken);
    assert url == UrlPrefix + botToken + UrlSuffix;
    assert url[|UrlPrefix|..|url| - |UrlSuffix|] == botToken;
  }

  /** The names of a form's entries, in order. */
  function Names(form: seq<Field>): (names: seq<string>)
    ensures |names| == |form|
    ensures forall i :: 0 <= i < |form| ==> names[i] == form[i].name
  {
    if form == [] then [] else [form[0].name] + Names(form[1..])
  }

  /** `URLSearchParams.get`: the value of the first entry with the given name. */
  function Lookup(form: seq<Field>, name: string): (v: Option<FieldValue>)
    ensures v.None? <==> name !in Names(form)
  {
    if form == [] then None
    else if form[0].name == name then Some(form[0].value)
    else Lookup(form[1..], name)
  }

  /** The payload of `sendPoll`, as `createTelegramPoll` appends it: exactly four fields, in this order. */
  function PollForm(chatId: string, question: string, options: seq<string>, correctOptionId: int): (form: seq<Field>)
    ensures Names(form) == ["chat_id", "question", "options", "correct_option_id"]
  {
    [ Field("chat_id", Plain(chatId)),
      Field("question", Plain(question)),
      Field("options", JsonEncoded(options)),
      Field("correct_option_id", NumberValue(correctOptionId)) ]
  }

  /** Each field of the payload gives back the value that was passed for it. */
  lemma PollFormShape(chatId: string, question: string, options: seq<string>, correctOptionId: int)
    ensures var form := PollForm(chatId, question, options, correctOptionId);
      && Lookup(form, "chat_id") == Some(Plain(chatId))
      && Lookup(form, "question") == Some(Plain(question))
      && Lookup(form, "options") == Some(JsonEncoded(options))
      && Lookup(form, "correct_option_id") == Some(NumberValue(correctOptionId))
  {
    var form := PollForm(chatId, question, options, correctOptionId);
    assert "chat_id" != "question" && "chat_id" != "options" && "chat_id" != "correct_option_id";
    assert "question" != "options" && "question" != "correct_option_id";
    assert "options" != "correct_option_id";
    assert form[1..][1..] == form[2..] && form[2..][1..] == form[3..];
    assert Lookup(form[3..], "correct_option_id") == Some(NumberValue(correctOptionId));
    assert Lookup(form[2..], "options") == Some(JsonEncoded(options));
    assert Lookup(form[2..], "correct_option_id") == Some(NumberValue(correctOptionId));
  }

  /**
   * `createTelegramPoll` as a value: whatever the service answers, the fetch is
   * inside a try/catch that only logs, so the call always completes normally.
   */
  function CreateTelegramPoll(cfg: Config, question: string, options: seq<string>, correctOptionId: int,
                              delivery: Delivery): (p: Publication)
    ensures p.completion == Normal
    ensures p.request.url == PollUrl(cfg.botToken) && p.request.delivery == delivery
    ensures p.request.form == PollForm(cfg.chatId, question, options, correctOptionId)
  {
    var request := PollRequest(PollUrl(cfg.botToken), PollForm(cfg.chatId, question, options, correctOptionId), delivery);
    match delivery
    case Delivered => Publication(request, Normal)     // the reply is logged
    case RequestFailed => Publication(request, Normal) // the error is caught and logged
  }

  /** `URLSearchParams`: an ordered list of entries that `append` extends in place. */
  class FormData {
    var entries: seq<Field>

    constructor ()
      ensures entries == []
    {
      entries := [];
    }

    method Append(name: string, value: FieldValue)
      modifies this
      ensures entries == old(entries) + [Field(name, value)]
    {
      entries := entries + [Field(name, value)];
    }
  }

  /** Lines 21-25 of the publisher: a fresh form filled by four `append` calls. */
  method BuildPollForm(chatId: string, question: string, options: seq<string>, correctOptionId: int)
    returns (form: FormData)
    ensures fresh(form)
    ensures form.entries == PollForm(chatId, question, options, correctOptionId)
  {
    form := new FormData();
    form.Append("chat_id", Plain(chatId));
    form.Append("question", Plain(question));
    form.Append("options", JsonEncoded(options));
    form.Append("correct_option_id", NumberValue(correctOptionId));
  }
}
