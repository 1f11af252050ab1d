/**
  The pure parts of the setup wizard (src/setup/wizard.ts): the three input
  validators and the bot invite URL. A validator returns None to accept and
  the message to show otherwise. The interactive prompts are not modelled.
 */
module Wizard {
  import opened Wrappers
  import opened Strings

  // ---- the snowflake pattern ----

  /**
    A direct reading of the anchored pattern `\d{lo,hi}` at the end of the
    input: `lo` mandatory ASCII digits, then up to `hi - lo` optional ones,
    then the end. JavaScript's `\d` without the `u` flag is [0-9] only, and
    `$` without `m` matches only at the very end.
   */
  function MatchDigits(s: string, lo: nat, hi: nat): bool
    requires lo <= hi
    decreases |s|
  {
    if |s| == 0 then lo == 0
    else if hi == 0 then false
    else IsAsciiDigit(s[0]) && MatchDigits(s[1..], if lo == 0 then 0 else lo - 1, hi - 1)
  }

  /** `/^\d{17,20}$/.test(s)`. */
  predicate IsSnowflake(s: string) {
    MatchDigits(s, 17, 20)
  }

  /** The pattern matches exactly the strings of `lo` to `hi` ASCII digits. */
  lemma {:induction false} MatchDigitsMeaning(s: string, lo: nat, hi: nat)
    requires lo <= hi
    ensures MatchDigits(s, lo, hi) <==> lo <= |s| <= hi && IsAsciiDigits(s)
    decreases |s|
  {
    if |s| > 0 && hi > 0 {
      MatchDigitsMeaning(s[1..], if lo == 0 then 0 else lo - 1, hi - 1);
      if IsAsciiDigits(s) {
        assert forall i :: 0 <= i < |s[1..]| ==> IsAsciiDigit(s[1..][i]) by {
          forall i | 0 <= i < |s[1..]| ensures IsAsciiDigit(s[1..][i]) {
            assert s[1..][i] == s[i + 1];
          }
        }
      }
      if IsAsciiDigit(s[0]) && IsAsciiDigits(s[1..]) {
        assert forall i :: 0 <= i < |s| ==> IsAsciiDigit(s[i]) by {
          forall i | 0 <= i < |s| ensures IsAsciiDigit(s[i]) {
            if i > 0 { assert s[i] == s[1..][i - 1]; }
          }
        }
      }
    }
  }

  lemma SnowflakeMeaning(s: string)
    ensures IsSnowflake(s) <==> 17 <= |s| <= 20 && IsAsciiDigits(s)
  {
    MatchDigitsMeaning(s, 17, 20);
  }

  // ---- validators ----

  const ApplicationIdRequired := "Application ID is required"
  const GuildIdRequired := "Guild ID is required"
  const InvalidIdFormat := "Invalid format (should be 17-20 digits)"
  const TokenRequired := "Bot token is required"
  const TokenTooShort := "Invalid token format (too short)"
  const MinTokenLength: nat := 50

  /** `validateApplicationId`: required, then 17 to 20 ASCII digits. */
  function ValidateApplicationId(value: string): (r: Option<string>)
    ensures value == "" ==> r == Some(ApplicationIdRequired)
    ensures value != "" ==> (r.None? <==> 17 <= |value| <= 20 && IsAsciiDigits(value))
    ensures value != "" && r.Some? ==> r.value == InvalidIdFormat
  {
    SnowflakeMeaning(value);
    if value == "" then Some(ApplicationIdRequired)
    else if !IsSnowflake(value) then Some(InvalidIdFormat)
    else None
  }

  /** `validateGuildId`: the same check with its own "required" message. */
  function ValidateGuildId(value: string): (r: Option<string>)
    ensures value == "" ==> r == Some(GuildIdRequired)
    ensures value != "" ==> (r.None? <==> 17 <= |value| <= 20 && IsAsciiDigits(value))
    ensures value != "" && r.Some? ==> r.value == InvalidIdFormat
  {
    SnowflakeMeaning(value);
    if value == "" then Some(GuildIdRequired)
    else if !IsSnowflake(value) then Some(InvalidIdFormat)
    else None
  }

  /** The two id validators accept and reject the same inputs, and differ only in the "required" message. */
  lemma GuildAgreesWithApplication(value: string)
    ensures ValidateGuildId(value).None? <==> ValidateApplicationId(value).None?
    ensures value != "" ==> ValidateGuildId(value) == ValidateApplicationId(value)
  {
  }

  /** `validateToken`: required, then at least 50 UTF-16 code units; nothing else is checked. */
  function ValidateToken(value: string): (r: Option<string>)
    ensures value == "" ==> r == Some(TokenRequired)
    ensures value != "" ==> (r.None? <==> Utf16Length(value) >= MinTokenLength)
    ensures value != "" && r.Some? ==> r.value == TokenTooShort
  {
    if value == "" then Some(TokenRequired)
    else if Utf16Length(value) < MinTokenLength then Some(TokenTooShort)
    else None
  }

  /** In characters: 50 or more always pass, and fewer than 25 never do, whatever the code points. */
  lemma TokenLengthBounds(value: string)
    ensures |value| >= MinTokenLength ==> ValidateToken(value).None?
    ensures 0 < |value| && 2 * |value| < MinTokenLength ==> ValidateToken(value) == Some(TokenTooShort)
  {
  }

  // ---- invite URL ----

  const InvitePrefix := "https://discord.com/api/oauth2/authorize?client_id="
  const InviteSuffix := "&permissions=2147534848&scope=bot"

  /** The bot invite URL: the fixed prefix, the client id verbatim, the fixed suffix. */
  function InviteUrl(clientId: string): (url: string)
    ensures |url| == |InvitePrefix| + |clientId| + |InviteSuffix|
    ensures url[..|InvitePrefix|] == InvitePrefix
    ensures url[|InvitePrefix|..|url| - |InviteSuffix|] == clientId
    ensures url[|url| - |InviteSuffix|..] == InviteSuffix
  {
    var url := InvitePrefix + clientId + InviteSuffix;
    assert url[|InvitePrefix|..|url| - |InviteSuffix|] == clientId;
    url
  }

  /** Reading the client id back out of an invite URL. */
  function InviteClientId(url: string): Option<string> {
    if |url| >= |InvitePrefix| + |InviteSuffix|
       && url[..|InvitePrefix|] == InvitePrefix && url[|url| - |InviteSuffix|..] == InviteSuffix
    then Some(url[|InvitePrefix|..|url| - |InviteSuffix|])
    else None
  }

  /** Every client id survives the URL, and every URL of that shape is the invite URL of the id it carries. */
  lemma InviteUrlRoundTrip(clientId: string, url: string)
    ensures InviteClientId(InviteUrl(clientId)) == Some(clientId)
    ensures InviteClientId(url).Some? ==> InviteUrl(InviteClientId(url).value) == url
  {
    if InviteClientId(url).Some? {
      var id := InviteClientId(url).value;
      assert url == url[..|InvitePrefix|] + id + url[|url| - |InviteSuffix|..];
    }
  }
}
