/**
  The results e-mail (backend/email_service.py): the configuration check, the conversion
  of the narrative summary into HTML paragraphs and bullet lists, the score band that
  colours the e-mail, and the outcome reported back to the API. Building the MIME message
  and talking to the SMTP server are outside the model; the server's answer is a parameter.
*/
module EmailService {
  import opened Wrappers
  import opened Numbers
  import opened Text

  /** The settings read from the environment. */
  datatype EmailConfig = EmailConfig(senderEmail: Option<string>, senderPassword: Option<string>, baseUrl: string)

  /** __init__: SENDER_EMAIL and SENDER_PASSWORD may be unset; BASE_URL has a default. */
  function LoadConfig(env: map<string, string>): (config: EmailConfig)
    ensures "BASE_URL" !in env ==> config.baseUrl == "http://localhost:5173"
    ensures config.senderEmail.Some? <==> "SENDER_EMAIL" in env
    ensures config.senderPassword.Some? <==> "SENDER_PASSWORD" in env
  {
    EmailConfig(
      if "SENDER_EMAIL" in env then Some(env["SENDER_EMAIL"]) else None,
      if "SENDER_PASSWORD" in env then Some(env["SENDER_PASSWORD"]) else None,
      if "BASE_URL" in env then env["BASE_URL"] else "http://localhost:5173")
  }

  /** Python's truth value of an optional string: set and non-empty. */
  predicate IsSet(s: Option<string>) {
    s.Some? && s.value != ""
  }

  /** _validate_config: the sender address is checked before the password. */
  function ValidateConfig(config: EmailConfig): (r: (bool, string))
    ensures r.0 <==> IsSet(config.senderEmail) && IsSet(config.senderPassword)
    ensures !IsSet(config.senderEmail) ==> r.1 == "SENDER_EMAIL not configured"
    ensures IsSet(config.senderEmail) && !IsSet(config.senderPassword) ==> r.1 == "SENDER_PASSWORD not configured"
  {
    if !IsSet(config.senderEmail) then (false, "SENDER_EMAIL not configured")
    else if !IsSet(config.senderPassword) then (false, "SENDER_PASSWORD not configured")
    else (true, "Configuration valid")
  }

  // ---------------------------------------------------------------------------------------
  // _format_summary_to_html
  // ---------------------------------------------------------------------------------------

  const ParagraphOpen: string := "<p style=\"color: #4b5563; line-height: 1.6; margin: 12px 0; font-size: 14px;\">"
  const ListOpen: string := "<ul style=\"margin: 12px 0; padding-left: 20px;\">"
  const ItemOpen: string := "<li style=\"color: #4b5563; line-height: 1.6; margin: 6px 0; font-size: 14px;\">"

  /** A stripped line that starts with '-', '•' or '*'. */
  predicate IsBulletLine(line: string)
    ensures IsBulletLine(line) ==> line != [] && !IsSpace(line[0])
  {
    |line| > 0 && (line[0] == '-' || line[0] == '\U{2022}' || line[0] == '*')
  }

  /** The bullet items of a paragraph's lines: marker dropped, re-stripped, "**" removed. */
  function BulletItems(lines: seq<string>): (items: seq<string>)
    ensures |items| <= |lines|
    decreases |lines|
  {
    if lines == [] then []
    else
      var line := Strip(lines[|lines| - 1]);
      BulletItems(lines[..|lines| - 1])
        + (if IsBulletLine(line) then [RemoveBoldMarkers(Strip(line[1..]))] else [])
  }

  /** The other non-empty lines of a paragraph, stripped, "**" removed. */
  function RegularLines(lines: seq<string>): (texts: seq<string>)
    ensures |texts| <= |lines|
    decreases |lines|
  {
    if lines == [] then []
    else
      var line := Strip(lines[|lines| - 1]);
      RegularLines(lines[..|lines| - 1])
        + (if !IsBulletLine(line) && line != [] then [RemoveBoldMarkers(line)] else [])
  }

  /** The <li> elements of a list, in order. */
  function ListItems(items: seq<string>): string
    decreases |items|
  {
    if items == [] then "" else ListItems(items[..|items| - 1]) + ItemOpen + items[|items| - 1] + "</li>"
  }

  /** What one paragraph contributes: its <p> of regular text, then its <ul> of bullets. */
  function ParagraphParts(paragraph: string): (parts: seq<string>)
    ensures |parts| <= 2
  {
    if Strip(paragraph) == [] then []
    else
      var lines := SplitOn(paragraph, "\n");
      var regular := RegularLines(lines);
      var bullets := BulletItems(lines);
      (if regular != [] then [ParagraphOpen + Join(regular, " ") + "</p>"] else [])
        + (if bullets != [] then [ListOpen + ListItems(bullets) + "</ul>"] else [])
  }

  /** html_parts after the given paragraphs. */
  function HtmlParts(paragraphs: seq<string>): seq<string>
    decreases |paragraphs|
  {
    if paragraphs == [] then []
    else HtmlParts(paragraphs[..|paragraphs| - 1]) + ParagraphParts(paragraphs[|paragraphs| - 1])
  }

  /** ''.join(parts) */
  function Concat(parts: seq<string>): string
    decreases |parts|
  {
    if parts == [] then "" else Concat(parts[..|parts| - 1]) + parts[|parts| - 1]
  }

  /** The HTML for a summary: paragraphs are the pieces between blank-line separators. */
  function SummaryHtml(summary: string): (html: string)
    ensures IsBlank(summary) ==> html == ""
  {
    var paragraphs := SplitOn(summary, "\n\n");
    assert IsBlank(summary) ==> HtmlParts(paragraphs) == [] by {
      if IsBlank(summary) {
        BlankSummaryParagraphs(summary);
        BlankParagraphsEmitNothing(paragraphs);
      }
    }
    Concat(HtmlParts(paragraphs))
  }

  /** The loop over a paragraph's lines, sorting them into bullet items and regular text. */
  method SortLines(lines: seq<string>) returns (bulletItems: seq<string>, regularText: seq<string>)
    ensures bulletItems == BulletItems(lines) && regularText == RegularLines(lines)
  {
    bulletItems, regularText := [], [];
    for m := 0 to |lines|
      invariant bulletItems == BulletItems(lines[..m])
      invariant regularText == RegularLines(lines[..m])
    {
      assert lines[..m + 1][..m] == lines[..m];
      var line := Strip(lines[m]);
      if IsBulletLine(line) {
        bulletItems := bulletItems + [RemoveBoldMarkers(Strip(line[1..]))];
      } else if line != [] {
        regularText := regularText + [RemoveBoldMarkers(line)];
      }
    }
    assert lines[..|lines|] == lines;
  }

  /** The loop building list_html. */
  method ListHtml(items: seq<string>) returns (listHtml: string)
    ensures listHtml == ListOpen + ListItems(items) + "</ul>"
  {
    var elements := "";
    for n := 0 to |items|
      invariant elements == ListItems(items[..n])
    {
      assert items[..n + 1][..n] == items[..n];
      elements := elements + ItemOpen + items[n] + "</li>";
    }
    assert items[..|items|] == items;
    listHtml := ListOpen + elements + "</ul>";
  }

  /** One non-blank paragraph: its <p>, if it has regular text, then its <ul>, if it has bullets. */
  method FormatParagraph(paragraph: string) returns (parts: seq<string>)
    requires Strip(paragraph) != []
    ensures parts == ParagraphParts(paragraph)
  {
    var bulletItems, regularText := SortLines(SplitOn(paragraph, "\n"));
    parts := [];
    if regularText != [] {
      parts := parts + [ParagraphOpen + Join(regularText, " ") + "</p>"];
    }
    if bulletItems != [] {
      var listHtml := ListHtml(bulletItems);
      parts := parts + [listHtml];
    }
  }

  /** _format_summary_to_html: blank paragraphs are skipped, the others formatted in order. */
  method FormatSummaryToHtml(summary: string) returns (html: string)
    ensures html == SummaryHtml(summary)
  {
    var paragraphs := SplitOn(summary, "\n\n");
    var htmlParts: seq<string> := [];
    for j := 0 to |paragraphs|
      invariant htmlParts == HtmlParts(paragraphs[..j])
    {
      assert paragraphs[..j + 1][..j] == paragraphs[..j];
      assert HtmlParts(paragraphs[..j + 1]) == HtmlParts(paragraphs[..j]) + ParagraphParts(paragraphs[j]);
      if Strip(paragraphs[j]) != [] {
        var parts := FormatParagraph(paragraphs[j]);
        htmlParts := htmlParts + parts;
      }
    }
    assert paragraphs[..|paragraphs|] == paragraphs;
    html := Concat(htmlParts);
  }

  /** A line that, once stripped, is neither empty nor a bullet. */
  predicate RegularLine(line: string) {
    Strip(line) != [] && !IsBulletLine(Strip(line))
  }

  /** A line that, once stripped, starts with a bullet marker. */
  predicate BulletLine(line: string) {
    IsBulletLine(Strip(line))
  }

  predicate HasRegularLine(lines: seq<string>) {
    exists k :: 0 <= k < |lines| && RegularLine(lines[k])
  }

  predicate HasBulletLine(lines: seq<string>) {
    exists k :: 0 <= k < |lines| && BulletLine(lines[k])
  }

  /** A paragraph's lines have regular text when the earlier ones do or the last line is regular. */
  lemma HasRegularLineSnoc(lines: seq<string>)
    requires lines != []
    ensures HasRegularLine(lines) <==> HasRegularLine(lines[..|lines| - 1]) || RegularLine(lines[|lines| - 1])
  {
    var init, n := lines[..|lines| - 1], |lines| - 1;
    assert forall k :: 0 <= k < n ==> init[k] == lines[k];
  }

  /** A paragraph's lines have a bullet when the earlier ones do or the last line is one. */
  lemma HasBulletLineSnoc(lines: seq<string>)
    requires lines != []
    ensures HasBulletLine(lines) <==> HasBulletLine(lines[..|lines| - 1]) || BulletLine(lines[|lines| - 1])
  {
    var init, n := lines[..|lines| - 1], |lines| - 1;
    assert forall k :: 0 <= k < n ==> init[k] == lines[k];
  }

  /** A paragraph has regular text exactly when one of its lines is neither blank nor a bullet. */
  lemma {:induction false} RegularLinesPresent(lines: seq<string>)
    ensures RegularLines(lines) != [] <==> HasRegularLine(lines)
    decreases |lines|
  {
    if lines != [] {
      RegularLinesPresent(lines[..|lines| - 1]);
      HasRegularLineSnoc(lines);
    }
  }

  /** A paragraph has a list exactly when one of its lines is a bullet line. */
  lemma {:induction false} BulletItemsPresent(lines: seq<string>)
    ensures BulletItems(lines) != [] <==> HasBulletLine(lines)
    decreases |lines|
  {
    if lines != [] {
      BulletItemsPresent(lines[..|lines| - 1]);
      HasBulletLineSnoc(lines);
    }
  }

  /** No emitted item or paragraph text contains "**". */
  lemma {:induction false} NoBoldInItems(lines: seq<string>)
    ensures forall k :: 0 <= k < |BulletItems(lines)| ==> !HasBoldMarker(BulletItems(lines)[k])
    ensures forall k :: 0 <= k < |RegularLines(lines)| ==> !HasBoldMarker(RegularLines(lines)[k])
    decreases |lines|
  {
    if lines != [] {
      var line := Strip(lines[|lines| - 1]);
      NoBoldInItems(lines[..|lines| - 1]);
      if IsBulletLine(line) {
        RemoveBoldMarkersComplete(Strip(line[1..]));
      } else {
        RemoveBoldMarkersComplete(line);
      }
    }
  }

  /**
    A non-blank paragraph emits a <p> exactly when it has regular text and a <ul> exactly when
    it has bullet lines, the <p> first, and the joined paragraph text has no "**".
  */
  lemma ParagraphShape(paragraph: string)
    requires Strip(paragraph) != []
    ensures var lines := SplitOn(paragraph, "\n");
      var parts := ParagraphParts(paragraph);
      && |parts| == (if HasRegularLine(lines) then 1 else 0) + (if HasBulletLine(lines) then 1 else 0)
      && (HasRegularLine(lines) ==> parts[0] == ParagraphOpen + Join(RegularLines(lines), " ") + "</p>")
      && (HasBulletLine(lines) ==> parts[|parts| - 1] == ListOpen + ListItems(BulletItems(lines)) + "</ul>")
      && !HasBoldMarker(Join(RegularLines(lines), " "))
  {
    var lines := SplitOn(paragraph, "\n");
    RegularLinesPresent(lines);
    BulletItemsPresent(lines);
    NoBoldInItems(lines);
    JoinWithSpaceKeepsNoBold(RegularLines(lines));
  }

  /** A blank summary, or one made only of blank paragraphs, yields the empty string. */
  lemma {:induction false} BlankParagraphsEmitNothing(paragraphs: seq<string>)
    requires forall k :: 0 <= k < |paragraphs| ==> IsBlank(paragraphs[k])
    ensures HtmlParts(paragraphs) == []
    decreases |paragraphs|
  {
    if paragraphs != [] {
      BlankParagraphsEmitNothing(paragraphs[..|paragraphs| - 1]);
    }
  }

  /** Every paragraph of a blank summary is blank. */
  lemma BlankSummaryParagraphs(summary: string)
    requires IsBlank(summary)
    ensures forall k :: 0 <= k < |SplitOn(summary, "\n\n")| ==> IsBlank(SplitOn(summary, "\n\n")[k])
  {
    var paragraphs := SplitOn(summary, "\n\n");
    SplitPiecesFromText(summary, "\n\n");
    forall k | 0 <= k < |paragraphs| ensures IsBlank(paragraphs[k]) {
      forall i | 0 <= i < |paragraphs[k]| ensures IsSpace(paragraphs[k][i]) {
        var c := paragraphs[k][i];
        assert c in paragraphs[k];
        assert c in summary;
        var j :| 0 <= j < |summary| && summary[j] == c;
      }
    }
  }

  // ---------------------------------------------------------------------------------------
  // Score band of _create_email_template
  // ---------------------------------------------------------------------------------------

  datatype Band = Excellent | Good | NeedsImprovement | Critical

  /** The band of a score in hundredths of a point: 80, 60 and 40 points are the thresholds. */
  function ScoreBand(score: int): (b: Band)
    ensures b == Excellent <==> score >= 8000
    ensures b == Good <==> 6000 <= score < 8000
    ensures b == NeedsImprovement <==> 4000 <= score < 6000
    ensures b == Critical <==> score < 4000
  {
    if score >= 8000 then Excellent
    else if score >= 6000 then Good
    else if score >= 4000 then NeedsImprovement
    else Critical
  }

  /** A #rrggbb colour: '#' and six lower-case hexadecimal digits. */
  predicate IsHexColour(c: string) {
    |c| == 7 && c[0] == '#' && forall k :: 1 <= k < 7 ==> c[k] in "0123456789abcdef"
  }

  /** (score colour, label, badge colour, badge text colour) of each band. */
  function BandStyle(b: Band): (style: (string, string, string, string))
    ensures IsHexColour(style.0) && IsHexColour(style.2) && IsHexColour(style.3)
    ensures style.1 != ""
  {
    match b
    case Excellent => ("#22c55e", "Excellent", "#dcfce7", "#166534")
    case Good => ("#eab308", "Good", "#fef9c3", "#854d0e")
    case NeedsImprovement => ("#f97316", "Needs Improvement", "#fed7aa", "#9a3412")
    case Critical => ("#ef4444", "Critical", "#fee2e2", "#991b1b")
  }

  function Rank(b: Band): nat {
    match b
    case Critical => 0
    case NeedsImprovement => 1
    case Good => 2
    case Excellent => 3
  }

  /** A higher score never lands in a worse band. */
  lemma ScoreBandMonotone(s1: int, s2: int)
    requires s1 <= s2
    ensures Rank(ScoreBand(s1)) <= Rank(ScoreBand(s2))
  {
  }

  // ---------------------------------------------------------------------------------------
  // send_assessment_email
  // ---------------------------------------------------------------------------------------

  /** What the SMTP exchange ends in. */
  datatype SmtpOutcome = Delivered | AuthenticationFailed | SmtpFailure(detail: string) | UnexpectedFailure(detail: string)

  /** The link the e-mail points to. */
  function ShareUrl(config: EmailConfig, shareToken: string): (url: string)
    ensures |url| == |config.baseUrl| + 8 + |shareToken|
    ensures url[..|config.baseUrl|] == config.baseUrl && url[|config.baseUrl|..|config.baseUrl| + 8] == "/shared/"
    ensures url[|url| - |shareToken|..] == shareToken
  {
    config.baseUrl + "/shared/" + shareToken
  }

  /**
    send_assessment_email's (success, message): a configuration error is reported before
    anything is sent; otherwise the SMTP outcome decides.
  */
  function SendAssessmentEmail(config: EmailConfig, smtp: SmtpOutcome): (r: (bool, string))
    ensures !ValidateConfig(config).0 ==> r == (false, "Email configuration error: " + ValidateConfig(config).1)
    ensures ValidateConfig(config).0 ==> (r.0 <==> smtp == Delivered)
    ensures r.0 ==> r.1 == "Email sent successfully"
  {
    var (valid, error) := ValidateConfig(config);
    if !valid then (false, "Email configuration error: " + error)
    else match smtp
      case Delivered => (true, "Email sent successfully")
      case AuthenticationFailed => (false, "Email authentication failed. Please check sender credentials.")
      case SmtpFailure(detail) => (false, "Failed to send email: " + detail)
      case UnexpectedFailure(detail) => (false, "Unexpected error: " + detail)
  }

  /** With a bad configuration the SMTP server is never consulted: its outcome cannot matter. */
  lemma MisconfiguredSendIgnoresServer(config: EmailConfig, s1: SmtpOutcome, s2: SmtpOutcome)
    requires !ValidateConfig(config).0
    ensures SendAssessmentEmail(config, s1) == SendAssessmentEmail(config, s2)
    ensures !SendAssessmentEmail(config, s1).0
  {
  }
}
