/** `to_data_url`: binary data as a data URL (section 3 of RFC 2397), in the
    base64 form `data:<mime>;base64,<payload>`. */
module Utils {
  import opened Values
  import Base64

  const FallbackMime: string := "application/octet-stream"

  /** The MIME type of the URL: an explicit, non-empty `mime_type` is used
      as it is; otherwise the type guessed from the file name (the library
      guess is the parameter `guess`), and when that guess is missing or
      empty, `application/octet-stream`. The result is never empty. */
  function ChooseMime(filename: string, mimeType: Option<string>, guess: string -> Option<string>): (mime: string)
    ensures mime != ""
    ensures Truthy(mimeType) ==> mime == mimeType.value
    ensures !Truthy(mimeType) && Truthy(guess(filename)) ==> mime == guess(filename).value
    ensures !Truthy(mimeType) && !Truthy(guess(filename)) ==> mime == FallbackMime
  {
    if Truthy(mimeType) then mimeType.value
    else
      var guessed := guess(filename);
      if Truthy(guessed) then guessed.value else FallbackMime
  }

  /** An explicit MIME type makes the file name and the guesser irrelevant. */
  lemma ExplicitMimeIgnoresFilename(f1: string, f2: string, mimeType: Option<string>,
                                    g1: string -> Option<string>, g2: string -> Option<string>)
    requires Truthy(mimeType)
    ensures ChooseMime(f1, mimeType, g1) == ChooseMime(f2, mimeType, g2) == mimeType.value
  {
  }

  const Base64Marker: string := ";base64,"

  /** `to_data_url(data, filename, mime_type)`. */
  function ToDataUrl(data: seq<Base64.byte>, filename: string, mimeType: Option<string>,
                     guess: string -> Option<string>): (url: string)
    ensures |url| == 5 + |ChooseMime(filename, mimeType, guess)| + 8 + 4 * ((|data| + 2) / 3)
    ensures url[..5] == "data:"
  {
    "data:" + ChooseMime(filename, mimeType, guess) + Base64Marker + Base64.Encode(data)
  }

  /** The text after the last comma of a string (all of it when there is no
      comma): where a reader of a data URL finds the payload. */
  function AfterLastComma(s: string): (t: string)
    decreases |s|
  {
    if s == [] then []
    else if s[|s| - 1] == ',' then []
    else AfterLastComma(s[..|s| - 1]) + [s[|s| - 1]]
  }

  lemma {:induction false} AfterLastCommaOf(p: string, t: string)
    requires forall i :: 0 <= i < |t| ==> t[i] != ','
    ensures AfterLastComma(p + [','] + t) == t
    decreases |t|
  {
    var s := p + [','] + t;
    if t != [] {
      var t' := t[..|t| - 1];
      assert s[..|s| - 1] == p + [','] + t';
      AfterLastCommaOf(p, t');
      assert t == t' + [t[|t| - 1]];
    } else {
      assert s[|s| - 1] == ',';
    }
  }

  /** A Base64 text has no comma, so the payload is everything after the
      last comma of the URL, and decoding it gives back the data. */
  lemma {:induction false} DataUrlRoundTrip(data: seq<Base64.byte>, filename: string,
                                            mimeType: Option<string>, guess: string -> Option<string>)
    ensures var url := ToDataUrl(data, filename, mimeType, guess);
            var payload := AfterLastComma(url);
            && url == "data:" + ChooseMime(filename, mimeType, guess) + ";base64," + payload
            && Base64.Decode(payload) == Some(data)
  {
    var mime := ChooseMime(filename, mimeType, guess);
    var enc := Base64.Encode(data);
    Base64.EncodeShape(data);
    forall i | 0 <= i < |enc|
      ensures enc[i] != ','
    {
      if i < |enc| - Base64.Padding(|data|) {
        assert Base64.IsSymbol(enc[i]);
      }
    }
    var url := ToDataUrl(data, filename, mimeType, guess);
    assert url == ("data:" + mime + ";base64") + [','] + enc;
    AfterLastCommaOf("data:" + mime + ";base64", enc);
    Base64.DecodeEncode(data);
  }

  /** Empty data gives the bare header. */
  lemma EmptyDataUrl(filename: string, mimeType: Option<string>, guess: string -> Option<string>)
    ensures ToDataUrl([], filename, mimeType, guess) == "data:" + ChooseMime(filename, mimeType, guess) + ";base64,"
  {
  }
}
