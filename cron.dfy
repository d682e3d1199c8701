/**
 * The `/api/cron` route: it awaits `main()` and then answers with a fixed
 * acknowledgment, whatever the orchestration did.
 */
module CronRoute {
  import opened JsModel
  import opened Orchestrator

  const OkStatus: int := 200
  const AckContentType: string := "text/plain"
  const AckBody: string := "poll sent!\n"

  /** The acknowledgment a handler sends: status, content type and body. */
  datatype Reply = Reply(status: int, contentType: string, body: string)

  /**
   * What the handler answers once `main()` has settled: the fixed acknowledgment
   * when the promise resolves, nothing when it rejects (the handler's own promise
   * would then reject before reaching the response).
   */
  function CronReply(main: Completion): (r: Option<Reply>)
    ensures r.Some? <==> main.Normal?
    ensures r.Some? ==> r.value.status == 200 && r.value.contentType == "text/plain" && r.value.body == "poll sent!\n"
  {
    if main.Normal? then Some(Reply(OkStatus, AckContentType, AckBody)) else None
  }

  /** Every trigger is acknowledged with the same reply, whatever the two services do. */
  lemma CronAlwaysAcknowledges(cfg: TelegramPoll.Config, gen: nat -> Generated, deliver: nat -> TelegramPoll.Delivery)
    ensures CronReply(MainResult(cfg, gen, deliver, 0, false).completion) == Some(Reply(200, "text/plain", "poll sent!\n"))
  {
  }

  /** The part of an HTTP response object the handler writes. */
  class Response {
    var statusCode: int
    var headers: map<string, string>
    var body: string
    var ended: bool

    /** A response as the server hands it to a handler: status 200, nothing written yet. */
    constructor (headers: map<string, string>)
      ensures statusCode == OkStatus && this.headers == headers && body == "" && !ended
    {
      statusCode := OkStatus;
      this.headers := headers;
      body := "";
      ended := false;
    }

    method SetHeader(name: string, value: string)
      modifies this
      ensures headers == old(headers)[name := value]
      ensures statusCode == old(statusCode) && body == old(body) && ended == old(ended)
    {
      headers := headers[name := value];
    }

    method End(chunk: string)
      modifies this
      ensures body == old(body) + chunk && ended
      ensures statusCode == old(statusCode) && headers == old(headers)
    {
      body := body + chunk;
      ended := true;
    }
  }

  /**
   * The handler of `GET /api/cron`. It only reaches the response once `main()`
   * has resolved, so the acknowledgment is sent because `main` never rejects.
   */
  method HandleCron(bot: Bot, res: Response)
    modifies bot, res
    ensures bot.trace == old(bot.trace) + MainResult(bot.cfg, bot.generator, bot.transport, old(bot.calls), false).events
    ensures bot.calls == MainResult(bot.cfg, bot.generator, bot.transport, old(bot.calls), false).next
    ensures res.statusCode == OkStatus
    ensures res.headers == old(res.headers)["Content-Type" := AckContentType]
    ensures res.body == old(res.body) + AckBody && res.ended
  {
    var c := bot.RunMain(false);
    var reply := CronReply(c);
    if reply.Some? {
      res.statusCode := reply.value.status;
      res.SetHeader("Content-Type", reply.value.contentType);
      res.End(reply.value.body);
    }
  }
}
