/** The Slack webhook notifier: the message with one attachment it builds for
    new stars, the channel rule, the empty-list guard, the test message, and
    how the outcome of the webhook request becomes an error. The title mark
    and the bell of the test message are the characters the Go source holds,
    which are the Mac OS Roman reading of the UTF-8 bytes of a star and a bell. */
module SlackWebhook {
  import opened Wrappers
  import opened Text
  import opened Errors
  import opened GitHub
  import opened Notify

  datatype Field = Field(title: string, value: string, short: bool)

  datatype Attachment = Attachment(color: string, title: string, titleLink: string, text: string,
                                   fields: seq<Field>, footer: string)

  /** A webhook message; empty strings and an empty attachment list are left
      out of the JSON, so a message names a channel exactly when `channel`
      is not empty. */
  datatype Message = Message(text: string, channel: string, username: string, iconEmoji: string,
                             attachments: seq<Attachment>)

  const TitleMark: string := "\U{201A}\U{2260}\U{00EA}"
  const TestMark: string := "\U{F8FF}\U{00FC}\U{00EE}\U{00EE}"

  const Username: string := "GitHub Stars Notify"

  /** The attachment's title, in the singular for one star. */
  function Title(owner: string, repo: string, n: nat): string {
    if n == 1 then TitleMark + " 1 new star for " + owner + "/" + repo
    else TitleMark + " " + IntToString(n) + " new stars for " + owner + "/" + repo
  }

  /** The attachment's text, in the singular for one star. */
  function AttachmentText(owner: string, repo: string, n: nat): string {
    if n == 1 then "Repository <" + RepoUrl(owner, repo) + "|" + owner + "/" + repo + "> received a new star!"
    else "Repository <" + RepoUrl(owner, repo) + "|" + owner + "/" + repo + "> received "
         + IntToString(n) + " new stars!"
  }

  /** The short field that lists one stargazer. */
  function StargazerField(sg: Stargazer): Field {
    Field(sg.login, "<" + ProfileUrl(sg.login) + "|View Profile>", true)
  }

  /** The field that stands for the `n - 10` stargazers not listed. */
  function OverflowField(n: nat): Field {
    Field("And more...", IntToString(n - MaxStargazers) + " more stargazers", false)
  }

  /** The fields of the attachment: the first ten stargazers, and one
      overflow field when there are more. */
  function Fields(stargazers: seq<Stargazer>): seq<Field> {
    Listing(stargazers, StargazerField, OverflowField(|stargazers|))
  }

  /** The message `createMessage` builds (without its timestamp) for a
      notifier configured with `channel`. */
  function MessageFor(channel: string, owner: string, repo: string, stargazers: seq<Stargazer>): Message {
    var n := |stargazers|;
    Message("", channel, Username, ":star:",
            [Attachment("good", Title(owner, repo, n), RepoUrl(owner, repo), AttachmentText(owner, repo, n),
                        Fields(stargazers), "GitHub Stars Notify")])
  }

  /** `createMessage`: the stargazer loop stops at index ten with the
      overflow field; the channel is set only when one is configured. */
  method CreateMessage(channel: string, owner: string, repo: string, stargazers: seq<Stargazer>)
    returns (m: Message)
    ensures m == MessageFor(channel, owner, repo, stargazers)
  {
    var n := |stargazers|;
    var fields: seq<Field> := [];
    var i := 0;
    while i < n
      invariant i <= n && i <= MaxStargazers
      invariant fields == ListedRows(stargazers, StargazerField, i)
    {
      if i >= MaxStargazers {
        fields := fields + [OverflowField(n)];
        assert fields == Fields(stargazers);
        break;
      }
      fields := fields + [StargazerField(stargazers[i])];
      i := i + 1;
    }
    assert fields == Fields(stargazers);
    var attachment := Attachment("good", Title(owner, repo, n), RepoUrl(owner, repo), AttachmentText(owner, repo, n),
                                 fields, "GitHub Stars Notify");
    m := Message("", "", Username, ":star:", [attachment]);
    if channel != "" {
      m := m.(channel := channel);
    }
  }

  /** One attachment, the fixed username and icon, the channel as
      configured; the first min(n, 10) stargazers listed in order as short
      fields linking to their profiles, and exactly when n > 10 one more
      field, not short, whose value begins with the number n - 10. */
  lemma MessageShape(channel: string, owner: string, repo: string, stargazers: seq<Stargazer>)
    requires |stargazers| <= MaxInt64
    ensures var m := MessageFor(channel, owner, repo, stargazers); var n := |stargazers|;
      && |m.attachments| == 1 && m.username == "GitHub Stars Notify" && m.iconEmoji == ":star:"
      && (m.channel != "" <==> channel != "")
      && m.attachments[0].titleLink == "https://github.com/" + owner + "/" + repo
      && var fs := m.attachments[0].fields;
      && |fs| == Min(n, MaxStargazers) + (if n > MaxStargazers then 1 else 0)
      && (forall i :: 0 <= i < Min(n, MaxStargazers) ==>
            && fs[i].title == stargazers[i].login
            && fs[i].value == "<https://github.com/" + stargazers[i].login + "|View Profile>"
            && fs[i].short)
      && (n > MaxStargazers ==>
            && !fs[|fs| - 1].short
            && HasPrefix(fs[|fs| - 1].value, IntToString(n - 10))
            && Atoi(IntToString(n - 10)) == Some(n - 10))
  {
    var n := |stargazers|;
    var fs := Fields(stargazers);
    ListingShape(stargazers, StargazerField, OverflowField(n));
    forall i | 0 <= i < Min(n, MaxStargazers)
      ensures fs[i].title == stargazers[i].login
      ensures fs[i].value == "<https://github.com/" + stargazers[i].login + "|View Profile>"
      ensures fs[i].short
    {
      ProfileLink(stargazers[i]);
    }
    if n > MaxStargazers {
      AtoiOfIntToString(n - 10);
      assert fs[|fs| - 1] == OverflowField(n);
    }
  }

  lemma ProfileLink(sg: Stargazer)
    ensures StargazerField(sg).value == "<https://github.com/" + sg.login + "|View Profile>"
  {
    assert "<" + ("https://github.com/" + sg.login) == "<https://github.com/" + sg.login;
  }

  /** The title and the text state the number of stars, in the singular
      exactly when there is one. */
  lemma HeadlineWording(owner: string, repo: string, n: nat)
    ensures Title(owner, repo, n)
         == TitleMark + " " + IntToString(n) + (if n == 1 then " new star" else " new stars")
            + " for " + owner + "/" + repo
    ensures AttachmentText(owner, repo, n)
         == "Repository <" + RepoUrl(owner, repo) + "|" + owner + "/" + repo + "> received "
            + (if n == 1 then "a new star" else IntToString(n) + " new stars") + "!"
  {
    TitleWording(owner, repo, n);
    TextWording(owner, repo, n);
  }

  lemma TitleWording(owner: string, repo: string, n: nat)
    ensures Title(owner, repo, n)
         == TitleMark + " " + IntToString(n) + (if n == 1 then " new star" else " new stars")
            + " for " + owner + "/" + repo
  {
    if n == 1 {
      IntToStringOne();
      assert TitleMark + " " + "1" + " new star" + " for " == TitleMark + " 1 new star for ";
    } else {
      assert TitleMark + " " + IntToString(n) + " new stars" + " for "
          == TitleMark + " " + IntToString(n) + " new stars for ";
    }
  }

  lemma TextWording(owner: string, repo: string, n: nat)
    ensures AttachmentText(owner, repo, n)
         == "Repository <" + RepoUrl(owner, repo) + "|" + owner + "/" + repo + "> received "
            + (if n == 1 then "a new star" else IntToString(n) + " new stars") + "!"
  {
    var head := "Repository <" + RepoUrl(owner, repo) + "|" + owner + "/" + repo;
    if n == 1 {
      assert head + "> received " + "a new star" + "!" == head + "> received a new star!";
    } else {
      assert head + "> received " + (IntToString(n) + " new stars") + "!"
          == head + "> received " + IntToString(n) + " new stars!";
    }
  }

  /** `sendMessage` after marshalling: `Responded` with a 2xx status is the
      only success. */
  function SendResult(d: Delivery): (r: Option<Error>)
    ensures r.None? <==> d.Responded? && IsSuccessStatus(d.status)
    ensures r.Some? ==> r.value.NotificationError? && r.value.provider == ProviderSlack
    ensures r.Some? && d.Responded? ==> r.value.cause.None?
  {
    match d
    case RequestFailed(cause) => Some(NotificationError(ProviderSlack, "failed to create request", Some(cause)))
    case SendFailed(cause) => Some(NotificationError(ProviderSlack, "failed to send webhook", Some(cause)))
    case Responded(status, _) =>
      if status < 200 || status >= 300 then
        Some(NotificationError(ProviderSlack, "webhook request failed with status " + IntToString(status), None))
      else None
  }

  /** `NotifyNewStars`: nothing is built or sent for an empty list; otherwise
      the message is sent once and the delivery decides the error. */
  method NotifyNewStars(channel: string, owner: string, repo: string, stargazers: seq<Stargazer>, delivery: Delivery)
    returns (sent: Option<Message>, err: Option<Error>)
    ensures stargazers == [] ==> sent.None? && err.None?
    ensures stargazers != [] ==> sent == Some(MessageFor(channel, owner, repo, stargazers)) && err == SendResult(delivery)
    ensures err.None? <==> stargazers == [] || (delivery.Responded? && IsSuccessStatus(delivery.status))
  {
    if |stargazers| == 0 {
      return None, None;
    }
    var message := CreateMessage(channel, owner, repo, stargazers);
    return Some(message), SendResult(delivery);
  }

  const TestText: string := TestMark + " GitHub Stars Notify is now active and monitoring your repositories!"

  /** `TestConnection`: a plain text message under the robot icon, with the
      channel set only when one is configured. */
  method TestConnection(channel: string, delivery: Delivery) returns (sent: Message, err: Option<Error>)
    ensures sent == Message(TestText, channel, Username, ":robot_face:", [])
    ensures sent.channel != "" <==> channel != ""
    ensures err == SendResult(delivery)
  {
    sent := Message(TestText, "", Username, ":robot_face:", []);
    if channel != "" {
      sent := sent.(channel := channel);
    }
    err := SendResult(delivery);
  }
}
