/**
 * The pure half of `DiscordLogger::log`: the role-to-colour match and the
 * embed builder chain that turns one log entry into a rich message.
 */
module Embeds {
  import opened Platform

  /** One conversational turn handed to the sink. */
  datatype LogEntry = LogEntry(role: string, message: string, context: Option<string>)

  /** The rendered message: what `CreateEmbed` is filled with. */
  datatype Embed = Embed(title: string, description: string, colour: nat, timestamp: Timestamp, footer: Option<string>)

  const HumanColour: nat := 0x3498db
  const AssistantColour: nat := 0x2ecc71
  const SystemColour: nat := 0x95a5a6
  const DefaultColour: nat := 0x7f8c8d

  /** The speech-balloon emoji and a space, put before the role in every title. */
  const TitlePrefix: string := "\U{1F4AC} "

  /** Colour of a role: three known roles and a fallback for all others. */
  function RoleColour(role: string): (c: nat)
    ensures c == HumanColour <==> role == "human"
    ensures c == AssistantColour <==> role == "assistant"
    ensures c == SystemColour <==> role == "system"
    ensures c == DefaultColour <==> role != "human" && role != "assistant" && role != "system"
  {
    if role == "human" then HumanColour
    else if role == "assistant" then AssistantColour
    else if role == "system" then SystemColour
    else DefaultColour
  }

  lemma ColoursDistinct()
    ensures |{HumanColour, AssistantColour, SystemColour, DefaultColour}| == 4
  {
  }

  predicate IsAsciiLower(c: char) {
    'a' <= c <= 'z'
  }

  /** ASCII upper-casing of one character; every other character is kept. */
  function UpperChar(c: char): (u: char)
    ensures IsAsciiLower(c) ==> 'A' <= u <= 'Z' && u as int - 'A' as int == c as int - 'a' as int
    ensures !IsAsciiLower(c) ==> u == c
  {
    if IsAsciiLower(c) then (c as int - 32) as char else c
  }

  /** Upper-casing of a role name, character by character. */
  function ToUpper(s: string): (r: string)
    ensures |r| == |s|
    ensures forall i :: 0 <= i < |s| ==> r[i] == UpperChar(s[i])
    ensures forall i :: 0 <= i < |r| ==> !IsAsciiLower(r[i])
  {
    if s == [] then [] else [UpperChar(s[0])] + ToUpper(s[1..])
  }

  lemma ToUpperIdempotent(s: string)
    ensures ToUpper(ToUpper(s)) == ToUpper(s)
  {
  }

  /**
   * The builder chain: title, description, colour and timestamp are always
   * set; the footer is added only when a context annotation is given.
   */
  function BuildEmbed(entry: LogEntry, now: Timestamp): (e: Embed)
    ensures e.title == TitlePrefix + ToUpper(entry.role)
    ensures e.description == entry.message
    ensures e.colour == RoleColour(entry.role)
    ensures e.timestamp == now
    ensures e.footer.Some? <==> entry.context.Some?
    ensures entry.context.Some? ==> e.footer.value == entry.context.value
  {
    var embed := Embed(TitlePrefix + ToUpper(entry.role), entry.message, RoleColour(entry.role), now, None);
    if entry.context.Some? then embed.(footer := Some(entry.context.value)) else embed
  }

  /** What a reader of the thread can tell from one embed. */
  datatype Reading = Reading(shoutedRole: string, message: string, context: Option<string>, colour: nat)

  /** Reads an embed back: None when its title lacks the prefix. */
  function Read(e: Embed): Option<Reading> {
    if |TitlePrefix| <= |e.title| && e.title[..|TitlePrefix|] == TitlePrefix
    then Some(Reading(e.title[|TitlePrefix|..], e.description, e.footer, e.colour))
    else None
  }

  /** Formatting loses nothing but the case of the role. */
  lemma ReadBuildEmbed(entry: LogEntry, now: Timestamp)
    ensures Read(BuildEmbed(entry, now))
            == Some(Reading(ToUpper(entry.role), entry.message, entry.context, RoleColour(entry.role)))
  {
  }

  /** Two entries render alike at one instant exactly when a reader cannot tell them apart. */
  lemma BuildEmbedSame(a: LogEntry, b: LogEntry, now: Timestamp)
    ensures BuildEmbed(a, now) == BuildEmbed(b, now)
            <==> ToUpper(a.role) == ToUpper(b.role) && RoleColour(a.role) == RoleColour(b.role)
                 && a.message == b.message && a.context == b.context
  {
    if BuildEmbed(a, now) == BuildEmbed(b, now) {
      ReadBuildEmbed(a, now);
      ReadBuildEmbed(b, now);
    }
  }
}
