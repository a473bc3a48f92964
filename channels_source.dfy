/**
 * `Channels::toOptionArray`: the options of the channel drop-down in the
 * admin configuration. A placeholder comes first; then one option per channel
 * the API lists that has a non-empty `channel_id`, in the API's order,
 * labelled by its `name` when set and by its id otherwise.
 */
module ChannelsSource {
  import opened Wrappers
  import opened PhpValues
  import opened Transport
  import opened ApiClient
  import opened Sequences

  datatype SelectOption = SelectOption(text: string, value: string)

  const Placeholder := SelectOption("-- Please select a channel --", "")

  /** `(string)($channel['channel_id'] ?? '')`. */
  function ChannelValue(channel: Value): string {
    ToStr(GetOr(channel, "channel_id", Str("")))
  }

  /** `isset($channel['name']) ? (string)$channel['name'] : (string)($channel['channel_id'] ?? '')`. */
  function ChannelLabel(channel: Value): (text: string)
    ensures Isset(channel, "name") ==> text == ToStr(Get(channel, "name").value)
    ensures !Isset(channel, "name") ==> text == ChannelValue(channel)
  {
    if Isset(channel, "name") then ToStr(Get(channel, "name").value) else ChannelValue(channel)
  }

  /** A channel gets an option exactly when its id is not empty. */
  predicate IsListed(channel: Value) {
    ChannelValue(channel) != ""
  }

  function OptionFor(channel: Value): SelectOption {
    SelectOption(ChannelLabel(channel), ChannelValue(channel))
  }

  /** The option one channel contributes: its own when listed, none otherwise. */
  function Contribution(channel: Value): seq<SelectOption> {
    if IsListed(channel) then [OptionFor(channel)] else []
  }

  /** The options the channels contribute, in order (the placeholder excluded). */
  function Listed(channels: seq<Value>): seq<SelectOption> {
    if channels == [] then []
    else Listed(channels[..|channels| - 1]) + Contribution(channels[|channels| - 1])
  }

  /** The indices of the channels that get an option. */
  function ListedIndices(channels: seq<Value>): set<int> {
    Indices(channels, IsListed)
  }

  /** Listing distributes over concatenation: options keep the order of their channels. */
  lemma {:induction false} ListedAppend(a: seq<Value>, b: seq<Value>)
    ensures Listed(a + b) == Listed(a) + Listed(b)
    decreases |b|
  {
    if b == [] {
      assert a + b == a;
    } else {
      var init := b[..|b| - 1];
      var k := Contribution(b[|b| - 1]);
      SplitLast(a, b);
      ListedAppend(a, init);
      assert Listed(a) + Listed(init) + k == Listed(a) + (Listed(init) + k);
    }
  }

  /** An option is produced exactly for each listed channel, and is that channel's option. */
  lemma {:induction false} ListedMembers(channels: seq<Value>, o: SelectOption)
    ensures o in Listed(channels) <==> exists c :: c in channels && IsListed(c) && o == OptionFor(c)
  {
    if channels != [] {
      var init := channels[..|channels| - 1];
      var last := channels[|channels| - 1];
      assert channels == init + [last];
      ListedMembers(init, o);
      if o in Listed(init) {
        var c :| c in init && IsListed(c) && o == OptionFor(c);
        assert c in channels;
      }
      if exists c :: c in channels && IsListed(c) && o == OptionFor(c) {
        var c :| c in channels && IsListed(c) && o == OptionFor(c);
        if c != last {
          assert c in init;
        }
      }
    }
  }

  /** There is one option per channel with a non-empty id. */
  lemma {:induction false} ListedCount(channels: seq<Value>)
    ensures |Listed(channels)| == |ListedIndices(channels)|
  {
    if channels == [] {
      assert ListedIndices(channels) == {};
    } else {
      var n := |channels|;
      ListedCount(channels[..n - 1]);
      IndicesSnoc(channels, IsListed);
      assert n - 1 !in ListedIndices(channels[..n - 1]);
    }
  }

  /** The loop of `toOptionArray`: the placeholder, then each listed channel's option as it is met. */
  method BuildOptions(channels: seq<Value>) returns (options: seq<SelectOption>)
    ensures options == [Placeholder] + Listed(channels)
  {
    options := [Placeholder];
    var i := 0;
    while i < |channels|
      invariant 0 <= i <= |channels|
      invariant options == [Placeholder] + Listed(channels[..i])
    {
      var channel := channels[i];
      assert channels[..i + 1][..i] == channels[..i];
      var value := ChannelValue(channel);
      if value != "" {
        options := options + [SelectOption(ChannelLabel(channel), value)];
      }
      i := i + 1;
    }
    assert channels[..i] == channels;
  }

  class ChannelOptionSource {
    const client: Client

    constructor (client: Client)
      ensures this.client == client
    {
      this.client := client;
    }

    /**
     * `toOptionArray`: lists the channels through the client and builds the
     * options from them; `channels` is the array the client returned. With
     * a key, the client was left as one GET of `<base>/v1/channels` leaves it.
     */
    method ToOptionArray() returns (options: seq<SelectOption>, ghost channels: Value)
      modifies client.curl`headers, client.curl`timeout, client.curl`exchanges, client.curl`status, client.curl`body
      ensures channels.Arr?
      ensures client.GetApiKey(None) == "" ==> channels == Arr([]) && unchanged(client.curl)
      ensures client.GetApiKey(None) != "" ==>
        && client.Fetched(client.GetBaseUrl(None) + "/v1/channels", client.GetApiKey(None))
        && channels == client.FetchedData(client.GetBaseUrl(None) + "/v1/channels").GetOr(Arr([]))
      ensures options == [Placeholder] + Listed(Values(channels.entries))
    {
      var listed := client.ListChannels();
      channels := listed;
      options := BuildOptions(Values(listed.entries));
    }
  }
}
