/** twilio-shim/main.py: a fake SMS provider that captures messages in one in-memory
    buffer. `inbox` stores a posted payload and keeps only the newest 100 messages,
    `send_sms` answers like Twilio's message endpoint and stores the message without
    trimming, `list_inbox` returns the buffer and `home` renders it as an HTML table,
    newest first. HTTP routing and the clock are not modelled: the timestamp is a
    parameter. */
module SmsShim {
  /** A captured message: string keys to string values. */
  type Message = map<string, string>

  /** The most messages `inbox` keeps. */
  const BufferLimit: nat := 100

  /** The sid and status every fake send answers with. */
  const FakeSid: string := "SM_fake123"
  const QueuedStatus: string := "queued"
  const CreatedCode: nat := 201

  /** `del MESSAGES[:-n]` once the buffer holds more than `n` messages. */
  function KeepLast(s: seq<Message>, n: nat): (r: seq<Message>)
    ensures |r| == if |s| > n then n else |s|
    ensures r == s[|s| - |r|..]
  {
    if |s| > n then s[|s| - n..] else s
  }

  /** The record `send_sms` stores. */
  function SentRecord(to: string, frm: string, body: string, ts: string): (m: Message)
    ensures m.Keys == {"to", "frm", "body", "ts"}
    ensures m["to"] == to && m["frm"] == frm && m["body"] == body && m["ts"] == ts
  {
    map["to" := to, "frm" := frm, "body" := body, "ts" := ts]
  }

  /** `m.get(key, '')`. */
  function Field(m: Message, key: string): (v: string)
    ensures key in m ==> v == m[key]
    ensures key !in m ==> v == ""
  {
    if key in m then m[key] else ""
  }

  /** One table row of the page: to, from, body and time, in that order. */
  function Row(m: Message): string
  {
    "<tr><td>" + Field(m, "to") + "</td><td>" + Field(m, "frm") + "</td><td>" + Field(m, "body")
      + "</td><td>" + Field(m, "ts") + "</td></tr>"
  }

  /** `reversed(...)`. */
  function Reversed(s: seq<Message>): (r: seq<Message>)
    ensures |r| == |s|
    ensures forall i :: 0 <= i < |s| ==> r[i] == s[|s| - 1 - i]
  {
    if s == [] then [] else [s[|s| - 1]] + Reversed(s[..|s| - 1])
  }

  /** `"".join(row(m) for m in ms)`. */
  function ConcatRows(ms: seq<Message>): string
  {
    if ms == [] then "" else Row(ms[0]) + ConcatRows(ms[1..])
  }

  const PageHead: string :=
    "\n    <html><head><meta charset=\"utf-8\"><title>SMS Capture</title>\n"
    + "    <style>table{width:100%;border-collapse:collapse}td,th{border:1px solid #333;padding:6px}</style>\n"
    + "    </head><body>\n"
    + "    <h3>Captured SMS (dev)</h3>\n"
    + "    <table><thead><tr><th>To</th><th>From</th><th>Body</th><th>Time (UTC)</th></tr></thead><tbody>"
  const PageTail: string := "</tbody></table>\n    </body></html>"

  /** The rows of the page for a buffer: its messages newest first. */
  function PageRows(buffer: seq<Message>): string
  {
    ConcatRows(Reversed(buffer))
  }

  lemma {:induction false} ConcatRowsAppend(a: seq<Message>, b: seq<Message>)
    ensures ConcatRows(a + b) == ConcatRows(a) + ConcatRows(b)
  {
    if a == [] {
      assert a + b == b;
    } else {
      assert (a + b)[0] == a[0];
      assert (a + b)[1..] == a[1..] + b;
      ConcatRowsAppend(a[1..], b);
      Assoc(Row(a[0]), ConcatRows(a[1..]), ConcatRows(b));
    }
  }

  lemma Assoc(x: string, y: string, z: string)
    ensures x + (y + z) == (x + y) + z
  {
  }

  lemma ReversedAppend(a: seq<Message>, b: seq<Message>)
    ensures Reversed(a + b) == Reversed(b) + Reversed(a)
  {
  }

  /** The newest message heads the page, ahead of the rows of every older one. */
  lemma {:induction false} PageRowsNewestFirst(buffer: seq<Message>, m: Message)
    ensures PageRows(buffer + [m]) == Row(m) + PageRows(buffer)
  {
    ReversedAppend(buffer, [m]);
    assert Reversed([m]) == [m];
    ConcatRowsAppend([m], Reversed(buffer));
    assert ConcatRows([m]) == Row(m) + ConcatRows([]);
  }

  /** Older messages come after newer ones: the page of a buffer split in two shows the
      newer part first. */
  lemma {:induction false} PageRowsSplit(older: seq<Message>, newer: seq<Message>)
    ensures PageRows(older + newer) == PageRows(newer) + PageRows(older)
  {
    ReversedAppend(older, newer);
    ConcatRowsAppend(Reversed(newer), Reversed(older));
  }

  /** The module-level `MESSAGES` list and the handlers that read and change it. */
  class Shim {
    var messages: seq<Message>

    constructor ()
      ensures messages == []
    {
      messages := [];
    }

    /** POST /inbox: stamps the payload with `ts`, appends it, and drops the oldest
        messages beyond the newest 100. The reply is `{"ok": true}`. */
    method Inbox(payload: Message, ts: string) returns (ok: bool)
      modifies this
      ensures messages == KeepLast(old(messages) + [payload["ts" := ts]], BufferLimit)
      ensures |messages| == if |old(messages)| + 1 > BufferLimit then BufferLimit else |old(messages)| + 1
      ensures messages[|messages| - 1] == payload["ts" := ts]
      ensures messages == (old(messages) + [payload["ts" := ts]])[|old(messages)| + 1 - |messages|..]
      ensures ok
    {
      var stamped := payload["ts" := ts];
      messages := messages + [stamped];
      if |messages| > BufferLimit {
        messages := messages[|messages| - BufferLimit..];
      }
      ok := true;
    }

    /** POST /2010-04-01/Accounts/{sid}/Messages.json: stores the message, without
        trimming, and answers 201 with the fake sid, "queued" and the echoed fields. */
    method SendSms(sid: string, to: string, frm: string, body: string, ts: string)
      returns (status: nat, content: map<string, string>)
      modifies this
      ensures messages == old(messages) + [SentRecord(to, frm, body, ts)]
      ensures status == CreatedCode
      ensures content.Keys == {"sid", "status", "to", "from", "body"}
      ensures content["sid"] == FakeSid && content["status"] == QueuedStatus
      ensures content["to"] == to && content["from"] == frm && content["body"] == body
    {
      messages := messages + [map["to" := to, "frm" := frm, "body" := body, "ts" := ts]];
      status := 201;
      content := map["sid" := "SM_fake123", "status" := "queued", "to" := to, "from" := frm, "body" := body];
    }

    /** GET /inbox: the buffer, left as it is. */
    method ListInbox() returns (r: seq<Message>)
      ensures r == messages
    {
      r := messages;
    }

    /** GET /: the captured messages as an HTML table, newest first. The order of the
        rows is proved by `PageRowsNewestFirst` and `InboxShownFirst`. */
    function Home(): (page: string)
      reads this
      ensures page == PageHead + PageRows(messages) + PageTail
      ensures messages == [] ==> page == PageHead + PageTail
    {
      PageHead + ConcatRows(Reversed(messages)) + PageTail
    }
  }

  /** A message posted to the inbox and one sent through the fake endpoint both show up
      as the first row of the page. */
  lemma SentMessageShownFirst(buffer: seq<Message>, to: string, frm: string, body: string, ts: string)
    ensures PageRows(buffer + [SentRecord(to, frm, body, ts)])
      == "<tr><td>" + to + "</td><td>" + frm + "</td><td>" + body + "</td><td>" + ts + "</td></tr>"
         + PageRows(buffer)
  {
    PageRowsNewestFirst(buffer, SentRecord(to, frm, body, ts));
  }

  /** After an inbox post the page starts with the posted message's row, stamped with its
      time, and the rest are the kept older messages. */
  lemma InboxShownFirst(buffer: seq<Message>, payload: Message, ts: string)
    ensures var kept := KeepLast(buffer + [payload["ts" := ts]], BufferLimit);
      && |kept| >= 1
      && PageRows(kept) == Row(payload["ts" := ts]) + PageRows(kept[..|kept| - 1])
      && Field(kept[|kept| - 1], "ts") == ts
  {
    var kept := KeepLast(buffer + [payload["ts" := ts]], BufferLimit);
    assert kept == kept[..|kept| - 1] + [payload["ts" := ts]];
    PageRowsNewestFirst(kept[..|kept| - 1], payload["ts" := ts]);
  }
}
