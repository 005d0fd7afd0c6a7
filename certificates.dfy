/** The certificate showcase of the about page: a clicked card fills the
    showcase and points its download link at the card's PDF. The
    certificate's title, cleaned into a file-name slug, is written into the
    link's `download` attribute as `Kenneth_<slug>_Cert.pdf`. A click on the
    link does not use that attribute: its listener cancels the default
    action, fetches the link's `href`, the PDF, and saves what it fetched as
    `Kenneth_<slug>_certificate.jpg`. */
module Certificates {
  import opened Pages

  const NamePrefix := "Kenneth_"
  const PdfSuffix := "_Cert.pdf"
  const ImageSuffix := "_certificate.jpg"

  /** The characters `/[a-z0-9]/i` matches: ASCII letters and digits. */
  predicate IsAsciiAlnum(c: char)
  {
    'a' <= c <= 'z' || 'A' <= c <= 'Z' || '0' <= c <= '9'
  }

  /** The characters a cleaned title is made of. */
  predicate IsSlugChar(c: char)
  {
    'a' <= c <= 'z' || '0' <= c <= '9' || c == '_'
  }

  predicate IsSlug(s: string)
  {
    forall i :: 0 <= i < |s| ==> IsSlugChar(s[i])
  }

  function LowerChar(c: char): char
  {
    if 'A' <= c <= 'Z' then (c as int - 'A' as int + 'a' as int) as char else c
  }

  /** `s.replace(/[^a-z0-9]/gi, '_')`: every character that is not an ASCII
      letter or digit becomes an underscore. */
  function ReplaceNonAlnum(s: string): (r: string)
    ensures |r| == |s|
    ensures forall i :: 0 <= i < |s| ==>
      r[i] == (if IsAsciiAlnum(s[i]) then s[i] else '_')
  {
    if s == [] then []
    else [if IsAsciiAlnum(s[0]) then s[0] else '_'] + ReplaceNonAlnum(s[1..])
  }

  /** `s.toLowerCase()` on the ASCII letters, the only letters left after
      `ReplaceNonAlnum`. */
  function ToLower(s: string): (r: string)
    ensures |r| == |s|
    ensures forall i :: 0 <= i < |s| ==> r[i] == LowerChar(s[i])
  {
    if s == [] then [] else [LowerChar(s[0])] + ToLower(s[1..])
  }

  /** The cleaned title, computed as the page does: replace, then lowercase. */
  function CleanTitle(title: string): string
  {
    ToLower(ReplaceNonAlnum(title))
  }

  /** The `download` attribute given to the PDF link; the link's click
      listener cancels the default action, so no download uses it. */
  function PdfName(title: string): string
  {
    NamePrefix + CleanTitle(title) + PdfSuffix
  }

  /** The file name the forced download saves the fetched link target
      under; that target is the PDF, but the name ends in `.jpg`. */
  function ImageName(title: string): string
  {
    NamePrefix + CleanTitle(title) + ImageSuffix
  }

  /** The slug between the fixed prefix and a suffix of `suffixLength`
      characters, or `None` when the name is too short to hold both. */
  function SlugOf(name: string, suffixLength: nat): Option<string>
  {
    if |name| < |NamePrefix| + suffixLength then None
    else Some(name[|NamePrefix| .. |name| - suffixLength])
  }

  /** Cleaning keeps the length, yields only `[a-z0-9_]`, lowercases each
      ASCII letter or digit in place and puts `_` in place of everything else. */
  lemma CleanTitleShape(title: string)
    ensures |CleanTitle(title)| == |title|
    ensures IsSlug(CleanTitle(title))
    ensures forall i :: 0 <= i < |title| ==>
      CleanTitle(title)[i] == (if IsAsciiAlnum(title[i]) then LowerChar(title[i]) else '_')
  {
    var r := ReplaceNonAlnum(title);
    forall i | 0 <= i < |title|
      ensures IsSlugChar(CleanTitle(title)[i])
    {
      assert CleanTitle(title)[i] == LowerChar(r[i]);
    }
  }

  /** A string is left unchanged by cleaning exactly when it is already
      made of `[a-z0-9_]`. */
  lemma CleanTitleFixedPoints(s: string)
    ensures CleanTitle(s) == s <==> IsSlug(s)
  {
    CleanTitleShape(s);
    if IsSlug(s) {
      forall i | 0 <= i < |s|
        ensures CleanTitle(s)[i] == s[i]
      {
        assert IsSlugChar(s[i]);
      }
    }
  }

  /** Cleaning twice is cleaning once. */
  lemma CleanTitleIdempotent(title: string)
    ensures CleanTitle(CleanTitle(title)) == CleanTitle(title)
  {
    CleanTitleShape(title);
    CleanTitleFixedPoints(CleanTitle(title));
  }

  /** Cleaning is not one-to-one: titles of the same length that differ
      only in the case of their letters and in which punctuation stands
      where give the same file name. */
  lemma CleanTitleMerges(a: string, b: string)
    requires |a| == |b|
    requires forall i :: 0 <= i < |a| ==>
      (IsAsciiAlnum(a[i]) <==> IsAsciiAlnum(b[i])) &&
      (IsAsciiAlnum(a[i]) ==> LowerChar(a[i]) == LowerChar(b[i]))
    ensures CleanTitle(a) == CleanTitle(b)
  {
    CleanTitleShape(a);
    CleanTitleShape(b);
  }

  /** Both download names wrap the same slug in their fixed templates, and
      the slug can be read back out of either name. */
  lemma DownloadNamesWrapSlug(title: string)
    ensures |PdfName(title)| == |title| + |NamePrefix| + |PdfSuffix|
    ensures |ImageName(title)| == |title| + |NamePrefix| + |ImageSuffix|
    ensures SlugOf(PdfName(title), |PdfSuffix|) == Some(CleanTitle(title))
    ensures SlugOf(ImageName(title), |ImageSuffix|) == Some(CleanTitle(title))
    ensures PdfName(title)[..|NamePrefix|] == NamePrefix
    ensures ImageName(title)[..|NamePrefix|] == NamePrefix
  {
    var c := CleanTitle(title);
    CleanTitleShape(title);
    assert (NamePrefix + c + PdfSuffix)[|NamePrefix| .. |NamePrefix| + |c|] == c;
    assert (NamePrefix + c + ImageSuffix)[|NamePrefix| .. |NamePrefix| + |c|] == c;
  }

  /** The showcase panel and its download link. */
  class Showcase {
    var imgSrc: string
    var titleText: string
    var descText: string
    var downloadHref: string
    var downloadName: Option<string>
    var classList: set<string>

    /** The elements as the markup declares them, before any card click. */
    constructor (imgSrc: string, titleText: string, descText: string,
                 downloadHref: string, downloadName: Option<string>, classList: set<string>)
      ensures this.imgSrc == imgSrc && this.titleText == titleText && this.descText == descText
      ensures this.downloadHref == downloadHref && this.downloadName == downloadName
      ensures this.classList == classList
    {
      this.imgSrc := imgSrc;
      this.titleText := titleText;
      this.descText := descText;
      this.downloadHref := downloadHref;
      this.downloadName := downloadName;
      this.classList := classList;
    }

    /** A click on a certificate card with the given data attributes. */
    method OpenCard(img: string, pdf: string, title: string, desc: string)
      modifies this
      ensures imgSrc == img && titleText == title && descText == desc
      ensures downloadHref == pdf
      ensures downloadName == Some(PdfName(title))
      ensures classList == old(classList) + {Active}
    {
      imgSrc := img;
      titleText := title;
      descText := desc;
      downloadHref := pdf;
      var cleanTitle := CleanTitle(title);
      downloadName := Some(NamePrefix + cleanTitle + PdfSuffix);
      classList := classList + {Active};
    }

    /** The close button. */
    method Close()
      modifies this
      ensures classList == old(classList) - {Active}
      ensures imgSrc == old(imgSrc) && titleText == old(titleText) && descText == old(descText)
      ensures downloadHref == old(downloadHref) && downloadName == old(downloadName)
    {
      classList := classList - {Active};
    }

    /** The download link's click listener: the path it fetches is the
        link's `href` (after a card click, that card's PDF), and the file
        name it saves the fetched data under is the title shown in the
        showcase, cleaned and wrapped in the image template. */
    method ForcedDownload() returns (path: string, name: string)
      ensures path == downloadHref
      ensures SlugOf(name, |ImageSuffix|) == Some(CleanTitle(titleText))
      ensures name[..|NamePrefix|] == NamePrefix
      ensures name[|name| - |ImageSuffix|..] == ImageSuffix
      ensures IsSlug(name[|NamePrefix| .. |name| - |ImageSuffix|])
    {
      path := downloadHref;
      var certName := CleanTitle(titleText);
      name := NamePrefix + certName + ImageSuffix;
      DownloadNamesWrapSlug(titleText);
      CleanTitleShape(titleText);
      assert name[|name| - |ImageSuffix|..] == ImageSuffix;
    }
  }
}
