/**
 * The record shaping of the Telegram scraper: each fetched message becomes one
 * output record, photo messages get an image path under a fixed per-channel
 * directory, any failure while scraping a channel yields no records for it, and
 * `main` writes one JSON batch per configured channel.
 */
module Scraper {
  import opened Wrappers
  import opened Strings

  /**
   * A message as the Telegram client yields it: its id, its date already in ISO
   * form, its text, whether it carries media and whether that media is a photo,
   * and its view and forward counters.
   */
  datatype Message = Message(
    id: int,
    date: string,
    text: Option<string>,
    hasMedia: bool,
    hasPhoto: bool,
    views: Option<int>,
    forwards: Option<int>)

  /** One scraped record, with the fields of the JSON objects `scrape_channel` builds. */
  datatype MessageRecord = MessageRecord(
    messageId: int,
    channelName: string,
    messageDate: string,
    messageText: Option<string>,
    hasMedia: bool,
    views: Option<int>,
    forwards: Option<int>,
    imagePath: Option<string>)

  /** At most this many messages are read per channel. */
  const MessageLimit: nat := 100

  /** The directory a channel's photos are downloaded to: `data/raw/images/<channel>`. */
  function ImageDir(channel: string): (dir: string)
    ensures dir == Join(["data", "raw", "images", channel], "/")
  {
    JoinFour("data", "raw", "images", channel, "/");
    assert "data/raw/images/" == "data" + "/" + "raw" + "/" + "images" + "/";
    "data/raw/images/" + channel
  }

  /**
   * Where the photo of message `id` of `channel` is stored:
   * `<image dir>/<str(id)>.jpg`, five path components in all.
   */
  function ImagePath(channel: string, id: int): (path: string)
    ensures path == Join(["data", "raw", "images", channel, IntToDecimal(id) + ".jpg"], "/")
  {
    var file := IntToDecimal(id) + ".jpg";
    JoinFive("data", "raw", "images", channel, file, "/");
    ImageDir(channel) + "/" + file
  }

  /**
   * The record of one message: the fields copied from the message, the channel
   * it was requested under, and an image path exactly when it has a photo.
   */
  function ShapeRecord(channel: string, m: Message): (r: MessageRecord)
    ensures r.messageId == m.id && r.channelName == channel
    ensures r.messageDate == m.date && r.messageText == m.text
    ensures r.hasMedia == m.hasMedia
    ensures r.views == m.views && r.forwards == m.forwards
    ensures m.hasPhoto ==> r.imagePath == Some(ImagePath(channel, m.id))
    ensures !m.hasPhoto ==> r.imagePath == None
  {
    MessageRecord(m.id, channel, m.date, m.text, m.hasMedia, m.views, m.forwards,
                  if m.hasPhoto then Some(ImagePath(channel, m.id)) else None)
  }

  /** True iff downloading the photo of `m` would raise. */
  predicate DownloadFails(channel: string, m: Message, downloadOk: string -> bool) {
    m.hasPhoto && !downloadOk(ImagePath(channel, m.id))
  }

  /**
   * The message loop of `scrape_channel`: records in message order, or `None`
   * as soon as one photo download raises.
   */
  function ShapeBatch(channel: string, msgs: seq<Message>, downloadOk: string -> bool): (r: Option<seq<MessageRecord>>)
    ensures r.None? <==> exists i :: 0 <= i < |msgs| && DownloadFails(channel, msgs[i], downloadOk)
    ensures r.Some? ==> |r.value| == |msgs|
    ensures r.Some? ==> forall i :: 0 <= i < |msgs| ==> r.value[i] == ShapeRecord(channel, msgs[i])
    decreases |msgs|
  {
    if |msgs| == 0 then Some([])
    else if DownloadFails(channel, msgs[0], downloadOk) then None
    else
      match ShapeBatch(channel, msgs[1..], downloadOk)
      case None => None
      case Some(rest) =>
        assert forall i :: 1 <= i < |msgs| ==> msgs[i] == msgs[1..][i - 1];
        Some([ShapeRecord(channel, msgs[0])] + rest)
  }

  /** The first `MessageLimit` messages of a channel, newest first as the client yields them. */
  function Fetched(feed: seq<Message>): (batch: seq<Message>)
    ensures |batch| <= MessageLimit
    ensures batch <= feed
    ensures |feed| <= MessageLimit ==> batch == feed
    ensures |feed| > MessageLimit ==> |batch| == MessageLimit
  {
    if |feed| <= MessageLimit then feed else feed[..MessageLimit]
  }

  /**
   * `scrape_channel`: the records of the channel's first `MessageLimit`
   * messages; when the channel cannot be resolved or read (`feed` is `None`) or
   * a photo download raises, the empty list.
   */
  function ScrapeChannel(channel: string, feed: Option<seq<Message>>, downloadOk: string -> bool): (records: seq<MessageRecord>)
    ensures |records| <= MessageLimit
    ensures feed.None? ==> records == []
    ensures feed.Some? && ShapeBatch(channel, Fetched(feed.value), downloadOk).Some? ==>
              |records| == |Fetched(feed.value)| &&
              forall i :: 0 <= i < |records| ==> records[i] == ShapeRecord(channel, feed.value[i])
    ensures feed.Some? && ShapeBatch(channel, Fetched(feed.value), downloadOk).None? ==> records == []
  {
    match feed
    case None => []
    case Some(msgs) =>
      match ShapeBatch(channel, Fetched(msgs), downloadOk)
      case None => []
      case Some(records) => records
  }

  /** The hard-coded channel list of `main`. */
  const Channels: seq<string> := ["Chemed", "lobelia4cosmetics", "tikvahpharma"]

  /** The keys of a Python dict, in insertion order. */
  function Keys<V>(d: seq<(string, V)>): (ks: seq<string>)
    ensures |ks| == |d|
    ensures forall i :: 0 <= i < |d| ==> ks[i] == d[i].0
  {
    seq(|d|, i requires 0 <= i < |d| => d[i].0)
  }

  /** True iff no element occurs twice. */
  predicate Distinct(xs: seq<string>) {
    forall i, j :: 0 <= i < j < |xs| ==> xs[i] != xs[j]
  }

  /** `d[key]` when present. */
  function Lookup<V>(d: seq<(string, V)>, key: string): Option<V> {
    if |d| == 0 then None
    else if d[0].0 == key then Some(d[0].1)
    else Lookup(d[1..], key)
  }

  /**
   * Python's `d[key] = value` on a dict kept as its items in insertion order: an
   * existing key keeps its position and takes the new value, a new key goes last.
   */
  function Put<V>(d: seq<(string, V)>, key: string, value: V): (r: seq<(string, V)>)
    ensures key in Keys(d) ==> Keys(r) == Keys(d)
    ensures key !in Keys(d) ==> Keys(r) == Keys(d) + [key]
  {
    if |d| == 0 then [(key, value)]
    else if d[0].0 == key then [(key, value)] + d[1..]
    else
      assert Keys(d) == [d[0].0] + Keys(d[1..]);
      [d[0]] + Put(d[1..], key, value)
  }

  /** After `d[key] = value`, `d[key]` is `value` and every other key is unchanged. */
  lemma {:induction false} PutLookup<V>(d: seq<(string, V)>, key: string, value: V, other: string)
    ensures Lookup(Put(d, key, value), key) == Some(value)
    ensures other != key ==> Lookup(Put(d, key, value), other) == Lookup(d, other)
  {
    if |d| > 0 && d[0].0 != key {
      PutLookup(d[1..], key, value, other);
      var r := Put(d, key, value);
      assert r[1..] == Put(d[1..], key, value);
    }
  }

  /** `Lookup` finds exactly the keys of the dict. */
  lemma {:induction false} LookupIffKey<V>(d: seq<(string, V)>, key: string)
    ensures Lookup(d, key).Some? <==> key in Keys(d)
  {
    if |d| > 0 {
      LookupIffKey(d[1..], key);
      assert Keys(d) == [d[0].0] + Keys(d[1..]);
    }
  }

  /** The dict `all_messages` after the channel loop of `main` has run over `channels`. */
  function ScrapeAll(channels: seq<string>, feeds: string -> Option<seq<Message>>, downloadOk: string -> bool)
    : (d: seq<(string, seq<MessageRecord>)>)
    ensures Distinct(Keys(d))
    ensures forall c :: c in Keys(d) <==> c in channels
    ensures Distinct(channels) ==> Keys(d) == channels
  {
    if |channels| == 0 then []
    else
      var prefix := channels[..|channels| - 1];
      var last := channels[|channels| - 1];
      assert channels == prefix + [last];
      Put(ScrapeAll(prefix, feeds, downloadOk), last, ScrapeChannel(last, feeds(last), downloadOk))
  }

  /**
   * The dict holds one entry per configured channel, whose records are that
   * channel's scrape, and nothing else.
   */
  lemma {:induction false} ScrapeAllEntries(channels: seq<string>, feeds: string -> Option<seq<Message>>,
                                            downloadOk: string -> bool, c: string)
    ensures c in channels ==> Lookup(ScrapeAll(channels, feeds, downloadOk), c) == Some(ScrapeChannel(c, feeds(c), downloadOk))
    ensures c !in channels ==> Lookup(ScrapeAll(channels, feeds, downloadOk), c) == None
  {
    if |channels| > 0 {
      var prefix := channels[..|channels| - 1];
      var last := channels[|channels| - 1];
      assert channels == prefix + [last];
      var earlier := ScrapeAll(prefix, feeds, downloadOk);
      var v := ScrapeChannel(last, feeds(last), downloadOk);
      assert ScrapeAll(channels, feeds, downloadOk) == Put(earlier, last, v);
      ScrapeAllEntries(prefix, feeds, downloadOk, c);
      PutLookup(earlier, last, v, c);
    }
  }

  /** The JSON file a channel's batch of one day is written to. */
  function JsonPath(today: string, channel: string): (path: string)
    ensures path == Join(["data", "raw", "telegram_messages", today, channel + ".json"], "/")
  {
    JoinFive("data", "raw", "telegram_messages", today, channel + ".json", "/");
    assert "data/raw/telegram_messages/" == "data" + "/" + "raw" + "/" + "telegram_messages" + "/";
    "data/raw/telegram_messages/" + today + "/" + channel + ".json"
  }

  /** A dated file name `today/channel.json` determines its date and its channel when the date has no slash. */
  lemma DatedNameInjective(today1: string, channel1: string, today2: string, channel2: string)
    requires '/' !in today1 && '/' !in today2
    requires today1 + "/" + channel1 + ".json" == today2 + "/" + channel2 + ".json"
    ensures today1 == today2 && channel1 == channel2
  {
    var t1, t2 := today1 + "/" + channel1 + ".json", today2 + "/" + channel2 + ".json";
    assert t1[|today1|] == '/' && forall k :: 0 <= k < |today1| ==> t1[k] == today1[k];
    assert t2[|today2|] == '/' && forall k :: 0 <= k < |today2| ==> t2[k] == today2[k];
    assert |today1| == |today2|;
    assert today1 == t1[..|today1|] == t2[..|today2|] == today2;
    var n := |today1| + 1;
    assert channel1 + ".json" == t1[n..] == t2[n..] == channel2 + ".json";
    assert channel1 == (channel1 + ".json")[..|channel1|];
    assert channel2 == (channel2 + ".json")[..|channel2|];
  }

  /** Different (date, channel) pairs never share a JSON file. */
  lemma JsonPathInjective(today1: string, channel1: string, today2: string, channel2: string)
    requires '/' !in today1 && '/' !in today2
    requires JsonPath(today1, channel1) == JsonPath(today2, channel2)
    ensures today1 == today2 && channel1 == channel2
  {
    var root := "data/raw/telegram_messages/";
    var t1, t2 := today1 + "/" + channel1 + ".json", today2 + "/" + channel2 + ".json";
    assert JsonPath(today1, channel1) == root + t1;
    assert JsonPath(today2, channel2) == root + t2;
    assert t1 == (root + t1)[|root|..] == (root + t2)[|root|..] == t2;
    DatedNameInjective(today1, channel1, today2, channel2);
  }

  /** One written JSON batch. */
  datatype JsonFile = JsonFile(path: string, records: seq<MessageRecord>)

  /** The save loop of `main`: one file per dict entry, in dict order. */
  function SaveAll(today: string, d: seq<(string, seq<MessageRecord>)>): (files: seq<JsonFile>)
    ensures |files| == |d|
    ensures forall i :: 0 <= i < |d| ==> files[i] == JsonFile(JsonPath(today, d[i].0), d[i].1)
  {
    seq(|d|, i requires 0 <= i < |d| => JsonFile(JsonPath(today, d[i].0), d[i].1))
  }

  /**
   * `main`: when the client cannot start, the script stops with nothing
   * written; otherwise every configured channel is scraped and its batch saved
   * under today's date.
   */
  function Main(connected: bool, today: string, feeds: string -> Option<seq<Message>>, downloadOk: string -> bool)
    : (written: Option<seq<JsonFile>>)
    ensures written.None? <==> !connected
    ensures written.Some? ==> |written.value| == |Channels|
    ensures written.Some? ==> forall i :: 0 <= i < |Channels| ==> written.value[i].path == JsonPath(today, Channels[i])
  {
    ChannelsDistinct();
    if !connected then None
    else Some(SaveAll(today, ScrapeAll(Channels, feeds, downloadOk)))
  }

  /** The configured channel names are pairwise different. */
  lemma ChannelsDistinct()
    ensures Distinct(Channels)
  {
    assert |Channels[0]| == 6 && |Channels[1]| == 17 && |Channels[2]| == 12;
  }

  /**
   * A connected run writes exactly three files, one per configured channel in
   * list order, each holding that channel's scrape (possibly empty).
   */
  lemma MainWritesOneFilePerChannel(today: string, feeds: string -> Option<seq<Message>>, downloadOk: string -> bool)
    ensures Main(false, today, feeds, downloadOk) == None
    ensures Main(true, today, feeds, downloadOk).Some?
    ensures |Main(true, today, feeds, downloadOk).value| == |Channels|
    ensures forall i :: 0 <= i < |Channels| ==>
              Main(true, today, feeds, downloadOk).value[i]
              == JsonFile(JsonPath(today, Channels[i]), ScrapeChannel(Channels[i], feeds(Channels[i]), downloadOk))
  {
    var v0 := ScrapeChannel(Channels[0], feeds(Channels[0]), downloadOk);
    var v1 := ScrapeChannel(Channels[1], feeds(Channels[1]), downloadOk);
    var v2 := ScrapeChannel(Channels[2], feeds(Channels[2]), downloadOk);
    var d0: seq<(string, seq<MessageRecord>)> := [];
    var d1 := Put(d0, Channels[0], v0);
    var d2 := Put(d1, Channels[1], v1);
    var d3 := Put(d2, Channels[2], v2);
    assert d1 == [(Channels[0], v0)];
    assert d2 == [(Channels[0], v0)] + Put([], Channels[1], v1);
    assert d2 == [(Channels[0], v0), (Channels[1], v1)];
    assert d2[1..] == [(Channels[1], v1)];
    assert d3 == [(Channels[0], v0)] + Put(d2[1..], Channels[2], v2);
    assert Put(d2[1..], Channels[2], v2) == [(Channels[1], v1)] + Put([], Channels[2], v2);
    assert Channels[..0] == [];
    assert Channels[..1] == [Channels[0]];
    assert Channels[..2] == [Channels[0], Channels[1]];
    assert ScrapeAll(Channels[..1], feeds, downloadOk) == d1;
    assert ScrapeAll(Channels[..2], feeds, downloadOk) == d2;
    assert Channels[..3] == Channels;
    assert ScrapeAll(Channels, feeds, downloadOk) == d3;
    assert d3 == [(Channels[0], v0), (Channels[1], v1), (Channels[2], v2)];
  }
}
