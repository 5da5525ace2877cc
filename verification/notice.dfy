/**
 * The DingTalk custom-robot notifier: every alert is logged at the severity
 * the caller names, turned into a robot "text" message whose `at` block says
 * whom to notify, and posted to the robot's webhook. Whatever goes wrong
 * while sending is logged at ERROR and never reaches the caller.
 *
 * The webhook is not called: the outcome of `requests.post` is a parameter
 * (`Reply`), and the requests issued are recorded in `posts`.
 */
module Notice {
  import opened Wrappers
  import opened Logging

  /** The marker put in front of every alert. */
  const AlertPrefix: string := "[警告]"

  /** The webhook address with the access token still to be filled in. */
  const UrlTemplate: string := "https://oapi.dingtalk.com/robot/send?access_token={0}"

  /** The message of the error `post` raises on a status other than 200. */
  const InterfaceError: string := "钉钉接口异常！"

  /** What the ERROR record of a failed send starts with. */
  const FailurePrefix: string := "send_msg is not success msg:"

  /** The function every record written by `send_msg` is attributed to. */
  const Caller: string := "send_msg"

  datatype TextBody = TextBody(content: string)

  /** The `at` block; `atMobiles` is `None` when the key is absent. */
  datatype At = At(isAtAll: bool, atMobiles: Option<seq<string>>)

  /** The JSON body posted to the webhook. */
  datatype Payload = Payload(msgtype: string, text: TextBody, at: At)

  datatype Request = Request(url: string, json: Payload)

  /** What `requests.post` came back with: a response status, or an exception and its text. */
  datatype Reply = Status(code: int) | Raised(reason: string)

  /** Python truthiness of an optional phone number: `None` and `''` are both false. */
  predicate Truthy(mobile: Option<string>)
  {
    mobile.Some? && mobile.value != ""
  }

  /** `UrlTemplate.format(token)`: the template with its `{0}` replaced by the token. */
  function Url(token: string): (r: string)
    ensures |r| == |UrlTemplate| - 3 + |token|
    ensures r[..|UrlTemplate| - 3] + "{0}" == UrlTemplate
    ensures r[|UrlTemplate| - 3..] == token
  {
    UrlTemplate[..|UrlTemplate| - 3] + token
  }

  // ---------------------------------------------------------------------------
  // Pure specification of send_msg's decisions

  /** The severity `log_print` selects; anything unrecognised means ERROR. */
  function LevelOf(logPrint: string): (r: Level)
    ensures r == INFO <==> logPrint == "info"
    ensures r == WARNING <==> logPrint == "warning"
    ensures r == DEBUG <==> logPrint == "debug"
    ensures r == ERROR <==> logPrint != "info" && logPrint != "warning" && logPrint != "debug"
  {
    if logPrint == "info" then INFO
    else if logPrint == "warning" then WARNING
    else if logPrint == "debug" then DEBUG
    else ERROR
  }

  /**
   * The message `send_msg` posts. `mobile` is the per-call number and
   * `defaultMobile` the one given at construction.
   */
  function BuildPayload(msg: string, mobile: Option<string>, defaultMobile: Option<string>, atAll: bool): (p: Payload)
    ensures p.msgtype == "text"
    ensures p.text.content == AlertPrefix + msg
    // everyone is notified unless a number is available and at_all was not asked for
    ensures !p.at.isAtAll <==> (Truthy(mobile) || Truthy(defaultMobile)) && !atAll
    // with no number anywhere, everyone is notified and no number is listed
    ensures !Truthy(mobile) && !Truthy(defaultMobile) ==> p.at.isAtAll && p.at.atMobiles.None?
    // a number is listed exactly when one is available, the per-call one first
    ensures p.at.atMobiles.Some? <==> Truthy(mobile) || Truthy(defaultMobile)
    ensures Truthy(mobile) ==> p.at.atMobiles == Some([mobile.value])
    ensures !Truthy(mobile) && Truthy(defaultMobile) ==> p.at.atMobiles == Some([defaultMobile.value])
    // the listed number does not depend on the flag: both are set when at_all was asked for
    ensures p.at.isAtAll && p.at.atMobiles.Some? <==> atAll && (Truthy(mobile) || Truthy(defaultMobile))
  {
    var isAtAll := if (Truthy(mobile) || Truthy(defaultMobile)) && !atAll then false else true;
    var phone := if Truthy(mobile) then mobile.value
                 else if !Truthy(mobile) && Truthy(defaultMobile) then defaultMobile.value
                 else "";
    Payload("text", TextBody(AlertPrefix + msg), At(isAtAll, if phone != "" then Some([phone]) else None))
  }

  /** Without a number anywhere, `at_all` makes no difference. */
  lemma AtAllIgnoredWithoutMobile(msg: string, mobile: Option<string>, defaultMobile: Option<string>)
    requires !Truthy(mobile) && !Truthy(defaultMobile)
    ensures BuildPayload(msg, mobile, defaultMobile, true) == BuildPayload(msg, mobile, defaultMobile, false)
  {
  }

  /** A per-call number makes the constructor's number irrelevant. */
  lemma MobileOverridesDefault(msg: string, mobile: Option<string>, d1: Option<string>, d2: Option<string>, atAll: bool)
    requires Truthy(mobile)
    ensures BuildPayload(msg, mobile, d1, atAll) == BuildPayload(msg, mobile, d2, atAll)
  {
  }

  /** The error `post` raises, if any: none without a token, none on status 200. */
  function PostError(token: string, reply: Reply): (r: Option<string>)
    ensures r.None? <==> token == "" || reply == Status(200)
    ensures token != "" && reply.Status? && reply.code != 200 ==> r == Some(InterfaceError)
    ensures token != "" && reply.Raised? ==> r == Some(reply.reason)
  {
    if token == "" then None
    else match reply
      case Status(code) => if code == 200 then None else Some(InterfaceError)
      case Raised(reason) => Some(reason)
  }

  /**
   * The per-level logs after one `send_msg`: the alert at the level
   * `logPrint` selects, written at `logTime`, and then, if posting failed,
   * the failure at ERROR, written at `errTime`. `file` is the path Python
   * reports for this module's own frame: both records are attributed to
   * `send_msg` itself.
   */
  function LogsAfterSend(logs: map<Level, seq<string>>, logPrint: string, msg: string, token: string, reply: Reply,
                         file: string, logTime: string, errTime: string): (r: map<Level, seq<string>>)
    requires logs.Keys == AllLevels
    ensures r.Keys == AllLevels
    // only the selected level and ERROR change
    ensures forall l :: l in r && l != LevelOf(logPrint) && l != ERROR ==> r[l] == logs[l]
    // the selected level receives the alert right after what it had
    ensures var lvl := LevelOf(logPrint);
      |r[lvl]| > |logs[lvl]| && r[lvl][..|logs[lvl]|] == logs[lvl]
      && r[lvl][|logs[lvl]|] == LogLine(LevelName(lvl), logTime, file, Caller, msg)
    // a level other than ERROR receives the alert and nothing else
    ensures LevelOf(logPrint) != ERROR ==>
      r[LevelOf(logPrint)] == logs[LevelOf(logPrint)] + [LogLine(LevelName(LevelOf(logPrint)), logTime, file, Caller, msg)]
    // ERROR receives one record per failure and one if it was the selected level
    ensures |r[ERROR]| == |logs[ERROR]| + (if LevelOf(logPrint) == ERROR then 1 else 0)
                                        + (if token != "" && reply != Status(200) then 1 else 0)
    ensures r[ERROR][..|logs[ERROR]|] == logs[ERROR]
    // any failure ends the ERROR log with the text of the error raised
    ensures PostError(token, reply).Some? ==>
      r[ERROR][|r[ERROR]| - 1] == LogLine("ERROR", errTime, file, Caller, FailurePrefix + PostError(token, reply).value)
    // a status other than 200 ends the ERROR log with the interface error
    ensures token != "" && reply.Status? && reply.code != 200 ==>
      r[ERROR][|r[ERROR]| - 1] == LogLine("ERROR", errTime, file, Caller, FailurePrefix + InterfaceError)
    // an exception from the post ends the ERROR log with the exception's text
    ensures token != "" && reply.Raised? ==>
      r[ERROR][|r[ERROR]| - 1] == LogLine("ERROR", errTime, file, Caller, FailurePrefix + reply.reason)
    // a successful post, or none at all, leaves only the alert
    ensures token == "" || reply == Status(200) ==>
      r == logs[LevelOf(logPrint) := logs[LevelOf(logPrint)] + [LogLine(LevelName(LevelOf(logPrint)), logTime, file, Caller, msg)]]
  {
    var lvl := LevelOf(logPrint);
    var once := logs[lvl := logs[lvl] + [LogLine(LevelName(lvl), logTime, file, Caller, msg)]];
    match PostError(token, reply)
    case None => once
    case Some(e) => once[ERROR := once[ERROR] + [LogLine(LevelName(ERROR), errTime, file, Caller, FailurePrefix + e)]]
  }

  // ---------------------------------------------------------------------------
  // The notifier object

  class DingTalkNotice {
    const logger: Logger
    const token: string
    const url: string
    /** The default phone number given at construction. */
    const mobile: Option<string>
    const content: string
    /** The requests issued to the webhook, oldest first. */
    ghost var posts: seq<Request>

    ghost predicate Valid()
      reads this, logger
    {
      logger.Valid() && url == UrlTemplate && content == AlertPrefix
    }

    constructor (accessToken: string, mobile: Option<string>, argv0: string, day: string)
      ensures Valid() && fresh(logger)
      ensures token == accessToken && this.mobile == mobile && posts == []
      ensures forall l :: l in logger.handlers ==>
        logger.handlers[l] == Handler(LogPath(Stem(argv0), l, day), "D", 1, Retention(l), "utf-8")
      ensures forall l :: l in logger.logs ==> logger.logs[l] == []
    {
      logger := new Logger(argv0, day);
      token := accessToken;
      url := UrlTemplate;
      this.mobile := mobile;
      content := AlertPrefix;
      posts := [];
    }

    /** Posts `data` unless there is no token; gives back the error that `post` raises, if any. */
    method Post(data: Payload, reply: Reply) returns (error: Option<string>)
      requires Valid()
      modifies this`posts
      ensures error == PostError(token, reply)
      ensures posts == if token == "" then old(posts) else old(posts) + [Request(Url(token), data)]
    {
      error := None;
      if token != "" {
        var address := url[..|url| - 3] + token;
        posts := posts + [Request(address, data)];
        match reply
        case Status(code) =>
          if code != 200 {
            error := Some(InterfaceError);
          }
        case Raised(reason) =>
          error := Some(reason);
      }
    }

    /**
     * The message body `send_msg` builds: the flag is settled first, then the
     * single number is chosen and, when there is one, added to the `at` block.
     */
    method MakePayload(msg: string, mobile: Option<string>, atAll: bool) returns (data: Payload)
      requires Valid()
      ensures data == BuildPayload(msg, mobile, this.mobile, atAll)
    {
      var everyone := atAll;
      if (Truthy(mobile) || Truthy(this.mobile)) && !everyone {
        everyone := false;
      } else {
        everyone := true;
      }
      data := Payload("text", TextBody(content + msg), At(everyone, None));
      var phone: string;
      if Truthy(mobile) {
        phone := mobile.value;
      } else if !Truthy(mobile) && Truthy(this.mobile) {
        phone := this.mobile.value;
      } else {
        phone := "";
      }
      if phone != "" {
        data := data.(at := data.at.(atMobiles := Some([phone])));
      }
    }

    /** Records the alert at the level `logPrint` names, or at ERROR when it names none. */
    method LogAlert(msg: string, logPrint: string, file: string, logTime: string)
      requires Valid()
      modifies logger
      ensures Valid()
      ensures logger.logs == old(logger.logs)[LevelOf(logPrint) :=
        old(logger.logs)[LevelOf(logPrint)] + [LogLine(LevelName(LevelOf(logPrint)), logTime, file, Caller, msg)]]
    {
      if logPrint == "info" {
        logger.Log(INFO, msg, logTime, file, Caller);
      } else if logPrint == "warning" {
        logger.Log(WARNING, msg, logTime, file, Caller);
      } else if logPrint == "debug" {
        logger.Log(DEBUG, msg, logTime, file, Caller);
      } else {
        logger.Log(ERROR, msg, logTime, file, Caller);
      }
    }

    /**
     * Logs the alert, builds the robot message and posts it; a failure to
     * post is logged at ERROR instead of being raised, so the call always
     * returns. `file` is the path Python reports for this module (both
     * records are attributed to `send_msg`'s own frame); `logTime` and
     * `errTime` are the clock readings the two records carry.
     */
    method SendMsg(msg: string, logPrint: string, mobile: Option<string>, atAll: bool, reply: Reply,
                   file: string, logTime: string, errTime: string)
      requires Valid()
      modifies this`posts, logger
      ensures Valid()
      ensures posts == if token == "" then old(posts)
                       else old(posts) + [Request(Url(token), BuildPayload(msg, mobile, this.mobile, atAll))]
      ensures logger.logs == LogsAfterSend(old(logger.logs), logPrint, msg, token, reply, file, logTime, errTime)
    {
      LogAlert(msg, logPrint, file, logTime);
      var data := MakePayload(msg, mobile, atAll);
      var error := Post(data, reply);
      if error.Some? {
        logger.Log(ERROR, FailurePrefix + error.value, errTime, file, Caller);
      }
    }
  }
}
