# ChaoXing playback signing — a Dafny model

The ChaoXing client (`ChaoXing.py`) logs in to the ChaoXing e-learning site and reports every
media attachment of a course chapter as fully played. Almost all of it is HTTP and disk work.
This project models the deterministic part: how each playback log request is built and signed.

- `Decimal` (`decimal.dfy`): Python's `str(n)` on integers, used wherever the client formats a
  number (`'{}'.format(...)`). It comes with its inverse, the value of a decimal string.
- `Signing` (`signing.dfy`): the clip-time string (`__get_clip_time`); the signature input that is
  hashed into the `enc` parameter (`__get_enc`), with a parser that reads its bracketed fields back;
  and the request parameter record (`__get_params`).
- `Playback` (`playback.dfy`): `play`. `Play` is a method with the source's `for` loop over the
  attachments. `Plan` is the function that specifies it: the sequence of log requests sent.

MD5, the network and the clock are the environment. They are parameters, not modelled behaviour:
- the hash is any function `md5: string -> string`, so every property holds for every hash;
- the reply to the k-th status request of a run is `env.status(objectId, k)`;
- the `_t` millisecond timestamp read by the k-th `__get_params` call is `env.clock(k)`.

Attachment number i (from 0) makes status requests 2i and 2i+1. The source fetches the status again
before the completion event, so the two events of one attachment may carry different durations.

Values that Python formats with `'{}'` or passes on unchanged, and that need not be strings, are
modelled by their text. These are the JSON values `defaults.userid`, `defaults.cpi`, and each
attachment's `jobid`, `property.objectid` and `otherInfo`; any of them may be a JSON number. The
optional clip start and end are modelled the same way. `None` becomes `Option.None`.

`ClipTime`, `EncInput`, `Enc`, `AttachmentSubmissions`, `Concat` and `Plan` are plain definitions. What they
promise is stated by the lemmas in the table below.

## Model

| member | source | states |
|---|---|---|
| `Decimal.NatToDecimalDigits` | ChaoXing.py:177-179 | the decimal text of a natural number is a run of digits with no leading zero |
| `Decimal.IntToDecimalChars` | ChaoXing.py:177-179 | `str(i)` starts with `-` exactly when `i` is negative, and every other character is a digit |
| `Decimal.NatToDecimalRoundTrip` | ChaoXing.py:177-179 | reading the digits of `n` back gives `n` |
| `Decimal.IntToDecimalRoundTrip` | ChaoXing.py:177-179 | `int(str(i)) == i` for every integer, negative ones included |
| `Decimal.IntToDecimalInjective` | ChaoXing.py:177-179 | distinct integers are formatted differently, so the millisecond fields determine the times |
| `Signing.ClipTimeParts` | ChaoXing.py:183-195 | the clip time starts with `0_` when the start is absent and with the start text otherwise; it ends with the duration when the end is absent and with the end text otherwise |
| `Signing.ClipTimeRoundTrip` | ChaoXing.py:188-195 | splitting the clip time at its last `_` gives back the defaulted start and end, when the end has no `_` |
| `Signing.ClipTimeDefaults` | ChaoXing.py:188-195 | with start and end both absent the clip time is `"0_" + str(duration)` |
| `Signing.ClipTimeExamples` | ChaoXing.py:183-195 | duration 120: no bounds gives `0_120`, end `90` gives `0_90`, start `10` gives `10_120` |
| `Signing.SplitJoined` | ChaoXing.py:172 | a run of bracketed fields without `]` parses back into exactly those fields |
| `Signing.EncInputFields` | ChaoXing.py:167-180 | when no caller-supplied text contains `]`, the hashed string reads back as exactly eight bracketed fields in order: clazz id, user id, job id (absent as empty), object id, playing time x1000, the secret `d_yHJ!$pdA~5`, duration x1000, clip time |
| `Signing.EncFieldsExample` | ChaoXing.py:167-180 | a start event for object `o3` of 60 s with no job id signs the fields `c1, u2, "", o3, 0, secret, 60000, 0_60` |
| `Signing.EncInputInjective` | ChaoXing.py:172-180 | when no caller-supplied text contains `]`, equal signature inputs imply equal clazz id, user id, job text, object id, playing time, duration and clip time |
| `Signing.AbsentJobSignsAsEmpty` | ChaoXing.py:167-181 | an absent job id gives the same signature input, and so the same enc, as the empty job id |
| `Signing.BuildParams` | ChaoXing.py:135-161 | `view` is always `pc` and `dtype` is always `Audio`; clazz id, user id, job id, object id, other info, rt, drag flag and `_t` pass through unchanged |
| `Signing.ParamsMatchSignature` | ChaoXing.py:140-180 | a record's enc is the hash of its signature input; when no caller-supplied text contains `]`, that input reads back as the record's own fields: times unscaled in the record and x1000 in the signature, and the same clip time in both |
| `Signing.EncIgnoresUnsignedArguments` | ChaoXing.py:135-161 | other info, rt, drag flag and `_t` leave the enc unchanged; records that differ only in them differ in those fields alone |
| `Signing.AbsentJobInParams` | ChaoXing.py:135-168 | an absent job id stays absent in the record, yet the record is signed as if the job id were `""` |
| `Playback.AttachmentEvents` | ChaoXing.py:102-119 | one attachment yields a start event and then a completion event. Start: playing time 0, drag 0, first reply's duration and dtoken. Completion: playing time and duration from the second reply, drag 4. Both have clip `0_<duration>`, rt absent, and the attachment's job id, object id and other info |
| `Playback.ConcatPairs` | ChaoXing.py:102-122 | when every loop pass sends two requests, the run sends twice as many requests as there are attachments, and requests 2i and 2i+1 come from pass i |
| `Playback.PlanPair` | ChaoXing.py:102-122 | `play` sends exactly two requests per attachment and skips none; requests 2i and 2i+1 are the pair built for attachment i |
| `Playback.PlanAt` | ChaoXing.py:99-122 | requests 2i and 2i+1 are the start and completion events of attachment i, built from status replies 2i and 2i+1 |
| `Playback.PlanSnoc` | ChaoXing.py:102-122 | each pass of the loop appends its attachment's pair to the requests sent so far |
| `Playback.PlayAttachment` | ChaoXing.py:103-119 | one loop pass yields the start submission, then the completion submission, for its attachment |
| `Playback.Play` | ChaoXing.py:99-124 | the loop sends exactly the planned requests, in order |

## Left out

- Login, session headers, the base64 password field and all HTTP transport (ChaoXing.py:27-41, 62-75): these are network plumbing. Replies enter the model only as `Env.status`.
- Cookie persistence with `pickle` and the `cookie.bin` existence check (ChaoXing.py:43-60): this is file I/O.
- Fetching the knowledge-card page, the `mArg` regex and the JSON decoding (ChaoXing.py:77-97): they follow library semantics. The model starts from the decoded attachments and `cpi`. A missing JSON key, which raises `KeyError`, is not modelled.
- MD5 itself (ChaoXing.py:181): it is a foreign `hashlib` call. It is an arbitrary function, so nothing is claimed about digests beyond what equal inputs give.
- Status requests are not outputs of the model, so their `_dc` query timestamp is not modelled (ChaoXing.py:126-133). Only their replies enter, as `Env.status`.
- The code sleeps once per attachment, after its second submission, for `random.randint(3, 10)` seconds (ChaoXing.py:124). This is timing with no effect on the submissions, and it is left out.
- All `print` output (ChaoXing.py:112-113, 121-122, 132) is logging and is left out.
- How `requests` encodes the parameter record as a query string, including dropping the `None`-valued `rt`: this is library behaviour. The model stops at the record.
- The parsers `SplitLast` and `SplitFields` are not in the source. They read the clip time and the signature input back, and exist only to state the layout properties.

## Notes

- `play` has no skip rule. Every attachment gets two submissions, whatever its module or type (`Playback.PlanPair`).
