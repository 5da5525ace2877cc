# DingTalk alert notifier, modelled in Dafny

`dingding_notice.py` sends alerts to a DingTalk custom robot. `DingTalkNotice.send_msg` does four things in order:

- it records the message in a per-severity log;
- it builds the robot's `text` message with the `[警告]` marker in front;
- it decides whom the message `@`-mentions: everyone, one phone number, or both;
- it posts the message to the webhook. Any failure is swallowed and logged at ERROR.

The `Logger` base class gives every severity its own daily-rotated file under `log\<program stem>\<level>\<YYYY-MM-DD>.log`. INFO keeps 7 old files and the other levels keep 30.

The project has three files:

- `strings.dfy`: `Wrappers.Option` and the module `Strings`. `Strings` holds character-level versions of `str.split` and `os.path.basename`, and `Join`, the inverse of `Split` that the path lemmas use.
- `logging.dfy`: the module `Logging`. It holds the four levels, the record format and the reader that parses records back, the program stem, the path and retention rules, and the `Logger` class. `Logger` has two static setup methods, `CreateHandlers` and `StreamHandler`, and one writing method, `Log`.
- `notice.dfy`: the module `Notice`. It holds the payload datatypes and the pure decision functions of `send_msg`: `LevelOf`, `BuildPayload`, `PostError` and `LogsAfterSend`. It also holds the `DingTalkNotice` class. The class's `SendMsg`, `LogAlert`, `MakePayload` and `Post` methods follow the source step by step. Each is proved equal to those functions.

Things outside the program are parameters:

- the outcome of the HTTP call (`Reply`: a status code, or the text of an exception);
- the program path (`sys.argv[0]`);
- the day and the timestamps;
- the path Python reports for the module itself. Inside `send_msg`, frame 2 of `inspect.stack()` is `send_msg`'s own frame, so both records carry this module's path and the function name `send_msg`.

The content of each level's file is a ghost field, `Logger.logs`. The requests sent to the webhook are a ghost field, `DingTalkNotice.posts`.

Points where the code's behaviour may surprise a reader:

- **The `at_all` flag and the phone number.** Passing `at_all=True` together with a phone number gives `isAtAll = true`, and `atMobiles` is still present. `atMobiles` is added whenever a number is available, whatever the flag says.
- **The marker.** It is the literal `[警告]`.
- **The paths.** They use backslashes.

## Model

| member | source | states |
|---|---|---|
| `Strings.AfterLast` | dingding_notice.py:66 | The base name is a suffix of the path. It contains no `/` or `\`. It is either the whole path or starts right after a separator. |
| `Strings.Split` | dingding_notice.py:66 | `str.split`: the pieces contain no separator, joining them gives back the input, and the first piece is the text before the first separator. |
| `Strings.SplitJoin` | dingding_notice.py:66 | Splitting undoes joining when no piece contains the separator. |
| `Logging.Stem` | dingding_notice.py:66 | The program stem is the part of the base name before its first `.`. It contains no `.`, `/` or `\`. |
| `Logging.LogLine` | dingding_notice.py:47 | The record `[LEVEL][time][file][function]: message`, the `%` format of `log_message`. |
| `Logging.LogLineShape` | dingding_notice.py:47 | A record is ten characters longer than its five fields together. It opens with the level in brackets and ends with `: ` and the message. |
| `Logging.ParseLine` | dingding_notice.py:47 | Any line the reader accepts is exactly the `[LEVEL][time][file][function]: message` rendering of the fields it returns. |
| `Logging.ParseLogLine` | dingding_notice.py:42-47 | Every record can be read back into the level, time, file, function and message it was written from, as long as only the message contains `]`. |
| `Logging.ReadFields` | dingding_notice.py:47 | Reading `n` bracketed fields yields exactly `n` fields, and those fields in brackets followed by the remainder give back the input. |
| `Logging.LevelDirPath` | dingding_notice.py:66-67 | The directory `log\<stem>\<level>` of one level. |
| `Logging.LevelDirPathComponents` | dingding_notice.py:66-67 | A level's directory splits at `\` into exactly `log`, the stem and the level's directory name. |
| `Logging.LogPath` | dingding_notice.py:72-75 | The file `log\<stem>\<level>\<day>.log` of one level for one day. |
| `Logging.LogPathInLevelDir` | dingding_notice.py:67-75 | A level's file lies directly inside that level's directory and is named `<day>.log`. |
| `Logging.LogPathComponents` | dingding_notice.py:66-75 | A level's file path splits at `\` into exactly `log`, the stem, the level's directory and `<day>.log`. |
| `Logging.LogPathsDistinct` | dingding_notice.py:71-76 | Two different levels never write to the same file. |
| `Logging.Retention` | dingding_notice.py:78-84 | The retention count is 7 exactly for INFO and 30 for DEBUG, WARNING and ERROR. |
| `Logging.Logger.CreateHandlers` | dingding_notice.py:65-85 | The four level directories come in the order info, error, warning, debug. There is exactly one handler per level, four in all. Each handler opens `log\<stem>\<level>\<day>.log`, rotates daily (`"D"`, interval 1), uses utf-8 and keeps `Retention(level)` files. Each handler's directory is among those created. |
| `Logging.Logger.StreamHandler` | dingding_notice.py:29-39 | Each level gets one logger. The logger is named after the level's numeric code and set to that level. Its console echo is at INFO, and its file handler is the level's own. |
| `Logging.Logger.constructor` | dingding_notice.py:22-27 | A new logger has the four level directories in creation order. Each level has exactly the handler that `CreateHandlers` states and exactly the logger that `StreamHandler` states. All four logs are empty. |
| `Logging.Logger.Log` | dingding_notice.py:49-63 | Writing at a level appends exactly one formatted record to that level's log. Every other level is unchanged. |
| `Notice.Truthy` | dingding_notice.py:110-130 | Python truthiness of a phone number: `None` and `''` are both false. |
| `Notice.Url` | dingding_notice.py:96-138 | `self.url.format(token)`: the template with its `{0}` replaced by the token. |
| `Notice.LevelOf` | dingding_notice.py:101-109 | `'info'`, `'warning'` and `'debug'` select their own level. Every other value selects ERROR. Both directions are stated. |
| `Notice.BuildPayload` | dingding_notice.py:98-131 | `msgtype` is `"text"` and the content is `[警告]` + msg. `isAtAll` is false exactly when a non-empty number is available and `at_all` is false. With no number, `isAtAll` is true and there is no `atMobiles`. `atMobiles` is present exactly when a number is available. It is a one-element list, and the per-call number wins over the default. Both `isAtAll` and `atMobiles` are set exactly when `at_all` was asked for and a number exists. |
| `Notice.AtAllIgnoredWithoutMobile` | dingding_notice.py:110-113 | When no number is available, `at_all` does not change the payload. |
| `Notice.MobileOverridesDefault` | dingding_notice.py:124-131 | When a non-empty per-call number is given, the default number does not change the payload. |
| `Notice.PostError` | dingding_notice.py:136-143 | Posting fails exactly when there is a token and the reply is not status 200. A non-200 status fails with `钉钉接口异常！`, and an exception fails with its own text. |
| `Notice.LogsAfterSend` | dingding_notice.py:100-143 | One send changes only the selected level and ERROR. The selected level gains the alert record right after its old content. A level other than ERROR gains that record and nothing else. ERROR gains one record for the failure, and one more if it was the selected level. Any failure ends the ERROR log with `send_msg is not success msg:` and the text of the error raised. That text is `钉钉接口异常！` for a status other than 200, and the exception's own text when the post raises. Without a token, or on status 200, only the alert is written. |
| `Notice.DingTalkNotice.constructor` | dingding_notice.py:93-98 | The notifier stores the token and the default number, and nothing has been posted yet. Its logger's handlers are those of `CreateHandlers` and its logs are empty. |
| `Notice.DingTalkNotice.LogAlert` | dingding_notice.py:101-109 | The alert is appended to the log of the level `log_print` selects, and to no other log. |
| `Notice.DingTalkNotice.MakePayload` | dingding_notice.py:110-131 | Settling the flag, building the dict and then adding `atMobiles` in place gives exactly `BuildPayload`. |
| `Notice.DingTalkNotice.Post` | dingding_notice.py:136-143 | With an empty token, nothing is posted and no error is raised. Otherwise exactly one request of the payload is recorded, sent to the `url` field's template filled with the token, and the error raised is `PostError`. |
| `Notice.DingTalkNotice.SendMsg` | dingding_notice.py:100-134 | `send_msg` always returns. It posts `BuildPayload(...)` once when there is a token and never without one. The logs afterwards are `LogsAfterSend` of the logs before. |

## Left out

- Opening the `TimedRotatingFileHandler`s and `StreamHandler`s, rotating and deleting files, and `os.makedirs`/`os.path.exists` are filesystem I/O. The model keeps the paths, the directory list and the settings each handler is given.
- Paths are modelled relative to the working directory. Joining them to `os.path.abspath('.')` and normalising them with `os.path.abspath` depend on the operating system.
- `Logging.Stem`: the base name is taken after the last `/` or `\`, as Windows path handling does. The drive-only form `C:prog.py` is not modelled.
- The `logging` library's level filtering for the console and the files, and the console echo itself, are library behaviour. Each level's log holds every record written at that level.
- `Logging.Logger.Log`: `info`, `warning`, `debug` and `error` are one method that takes the level.
- `inspect.stack()[2]` and the clock are runtime introspection and clock reads. The module's path and the timestamps are parameters. Inside `send_msg`, frame 2 of both records is `send_msg`'s own frame, so the function field is the constant `send_msg`.
- `Logging.Logger.Log`: `logging.getLogger(str(level))` returns loggers shared by the whole process. Every further `Logger` or `DingTalkNotice` built in the same process adds another console handler and another file handler to each of them, so each record is then written once per instance. The model has one logger per notifier, so "exactly one record" holds only when the process builds a single notifier.
- `requests.post`, `print(req.text)` and JSON serialisation are network and console I/O. The post outcome is the `Reply` parameter, and the payload is a datatype.
- Exceptions that the model's types rule out are not modelled. Examples are a non-string `msg` making `self.content + msg` fail, or logging itself raising. `at_all` is a `bool` and `log_print` a string.
- The `__main__` demo is a script entry point, not part of the notifier.
