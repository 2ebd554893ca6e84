/** The Discord webhook notifier: the message it builds for new stars, the
    empty-list guard, the test message, and how the outcome of the webhook
    request becomes an error. The HTTP exchange itself is a `Delivery`
    parameter. */
module DiscordWebhook {
  import opened Wrappers
  import opened Text
  import opened Errors
  import opened GitHub
  import opened Notify

  datatype Field = Field(name: string, value: string, inline: bool)

  datatype Embed = Embed(title: string, description: string, color: int, fields: seq<Field>, footer: string)

  /** A webhook message; an empty `content` or `embeds` is left out of the JSON. */
  datatype Message = Message(content: string, embeds: seq<Embed>)

  const GlowingStar: string := "\U{1F31F}"
  const Star: string := "\U{2B50}"
  const Bell: string := "\U{1F514}"

  /** The embed's description, in the singular for one star. */
  function Description(owner: string, repo: string, n: nat): string {
    if n == 1 then
      GlowingStar + " **1 new star** for [" + owner + "/" + repo + "](" + RepoUrl(owner, repo) + ")!"
    else
      GlowingStar + " **" + IntToString(n) + " new stars** for [" + owner + "/" + repo + "](" + RepoUrl(owner, repo) + ")!"
  }

  /** The inline field that lists one stargazer. */
  function StargazerField(sg: Stargazer): Field {
    Field(Star + " " + sg.login, "[View Profile](" + ProfileUrl(sg.login) + ")", true)
  }

  /** The field that stands for the `n - 10` stargazers not listed. */
  function OverflowField(n: nat): Field {
    Field("And more...", "+ " + IntToString(n - MaxStargazers) + " more stargazers", false)
  }

  /** The fields of the embed: the first ten stargazers, and one
      overflow field when there are more. */
  function Fields(stargazers: seq<Stargazer>): seq<Field> {
    Listing(stargazers, StargazerField, OverflowField(|stargazers|))
  }

  /** The message `createMessage` builds (without its timestamp). */
  function MessageFor(owner: string, repo: string, stargazers: seq<Stargazer>): Message {
    Message("", [Embed("New GitHub Stars", Description(owner, repo, |stargazers|), 0x00ff00,
                       Fields(stargazers), "GitHub Stars Notify")])
  }

  /** `createMessage`: the stargazer loop stops at index ten with the
      overflow field. */
  method CreateMessage(owner: string, repo: string, stargazers: seq<Stargazer>) returns (m: Message)
    ensures m == MessageFor(owner, repo, stargazers)
  {
    var fields: seq<Field> := [];
    var i := 0;
    while i < |stargazers|
      invariant i <= |stargazers| && i <= MaxStargazers
      invariant fields == ListedRows(stargazers, StargazerField, i)
    {
      if i >= MaxStargazers {
        fields := fields + [OverflowField(|stargazers|)];
        assert fields == Fields(stargazers);
        break;
      }
      fields := fields + [StargazerField(stargazers[i])];
      i := i + 1;
    }
    assert fields == Fields(stargazers);
    var embed := Embed("New GitHub Stars", Description(owner, repo, |stargazers|), 0x00ff00,
                       fields, "GitHub Stars Notify");
    m := Message("", [embed]);
  }

  /** The embed lists the first min(n, 10) stargazers in order, each inline
      with a link to its profile, and adds exactly when n > 10 one field,
      not inline, that reports the n - 10 others. */
  lemma FieldsShape(stargazers: seq<Stargazer>)
    ensures var fs := Fields(stargazers); var n := |stargazers|;
      && |fs| == Min(n, MaxStargazers) + (if n > MaxStargazers then 1 else 0)
      && (forall i :: 0 <= i < Min(n, MaxStargazers) ==>
            && fs[i].name == Star + " " + stargazers[i].login
            && fs[i].value == "[View Profile](https://github.com/" + stargazers[i].login + ")"
            && fs[i].inline)
      && (n > MaxStargazers ==> fs[|fs| - 1] == Field("And more...", "+ " + IntToString(n - 10) + " more stargazers", false))
  {
    var n := |stargazers|;
    var fs := Fields(stargazers);
    ListingShape(stargazers, StargazerField, OverflowField(n));
    forall i | 0 <= i < Min(n, MaxStargazers)
      ensures fs[i].name == Star + " " + stargazers[i].login
      ensures fs[i].value == "[View Profile](https://github.com/" + stargazers[i].login + ")"
      ensures fs[i].inline
    {
      ProfileLink(stargazers[i]);
    }
    if n > MaxStargazers {
      assert fs[|fs| - 1] == OverflowField(n);
    }
  }

  lemma ProfileLink(sg: Stargazer)
    ensures StargazerField(sg).value == "[View Profile](https://github.com/" + sg.login + ")"
  {
    assert "[View Profile](" + ("https://github.com/" + sg.login) == "[View Profile](https://github.com/" + sg.login;
  }

  /** The listed stargazers and the number in the overflow field add up to
      the number of new stargazers. */
  lemma OverflowAccountsForAll(stargazers: seq<Stargazer>)
    requires |stargazers| > MaxStargazers
    requires |stargazers| <= MaxInt64
    ensures var fs := Fields(stargazers); var v := fs[|fs| - 1].value;
      && |v| > 2 && v[..2] == "+ "
      && var count := IntToString(|stargazers| - 10);
      && HasPrefix(v[2..], count)
      && Atoi(count).Some? && Atoi(count).value + (|fs| - 1) == |stargazers|
  {
    var count := IntToString(|stargazers| - 10);
    AtoiOfIntToString(|stargazers| - 10);
    var fs := Fields(stargazers);
    var v := fs[|fs| - 1].value;
    assert v == "+ " + count + " more stargazers";
    assert v[2..] == count + " more stargazers";
  }

  /** The description states the number of stars, with "star" in the
      singular exactly when there is one. */
  lemma DescriptionStatesCount(owner: string, repo: string, n: nat)
    ensures Description(owner, repo, n)
         == GlowingStar + " **" + IntToString(n) + (if n == 1 then " new star" else " new stars")
            + "** for [" + owner + "/" + repo + "](" + RepoUrl(owner, repo) + ")!"
  {
    if n == 1 {
      IntToStringOne();
      assert GlowingStar + " **" + "1" + " new star" + "** for [" == GlowingStar + " **1 new star** for [";
    } else {
      assert GlowingStar + " **" + IntToString(n) + " new stars" + "** for ["
          == GlowingStar + " **" + IntToString(n) + " new stars** for [";
    }
  }

  /** `sendMessage` after marshalling: `Responded` with a 2xx status is the
      only success; the error of a rejected request quotes at most the first
      512 characters of the body. */
  function SendResult(d: Delivery): (r: Option<Error>)
    ensures r.None? <==> d.Responded? && IsSuccessStatus(d.status)
    ensures r.Some? ==> r.value.NotificationError? && r.value.provider == ProviderDiscord
    ensures r.Some? && d.Responded? ==> r.value.cause.None?
  {
    match d
    case RequestFailed(cause) => Some(NotificationError(ProviderDiscord, "failed to create request", Some(cause)))
    case SendFailed(cause) =>
      Some(NotificationError(ProviderDiscord, "failed to send webhook: " + Errors.Message(cause), Some(cause)))
    case Responded(status, body) =>
      if status < 200 || status >= 300 then
        var shown := if |body| <= 512 then body else body[..512];
        Some(NotificationError(ProviderDiscord, "webhook request failed with status " + IntToString(status)
                                                + ", response: " + shown, None))
      else None
  }

  /** `NotifyNewStars`: nothing is built or sent for an empty list; otherwise
      the message is sent once and the delivery decides the error. */
  method NotifyNewStars(owner: string, repo: string, stargazers: seq<Stargazer>, delivery: Delivery)
    returns (sent: Option<Message>, err: Option<Error>)
    ensures stargazers == [] ==> sent.None? && err.None?
    ensures stargazers != [] ==> sent == Some(MessageFor(owner, repo, stargazers)) && err == SendResult(delivery)
    ensures err.None? <==> stargazers == [] || (delivery.Responded? && IsSuccessStatus(delivery.status))
  {
    if |stargazers| == 0 {
      return None, None;
    }
    var message := CreateMessage(owner, repo, stargazers);
    return Some(message), SendResult(delivery);
  }

  const TestContent: string := Bell + " GitHub Stars Notify is now active and monitoring your repositories!"

  /** `TestConnection`: a plain content message, sent whatever the state. */
  method TestConnection(delivery: Delivery) returns (sent: Message, err: Option<Error>)
    ensures sent == Message(TestContent, [])
    ensures err == SendResult(delivery)
  {
    sent := Message(TestContent, []);
    err := SendResult(delivery);
  }
}
