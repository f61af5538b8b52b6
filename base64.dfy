/** The Base64 page (src/app/base64/page.tsx): a record of fields that the
    handlers set. `btoa` and `atob` are arguments that either give a result
    or throw (None). */
module Base64Tool {
  import opened Common
  import opened Text

  datatype Mode = Encode | Decode

  const EncodeError: string := "Failed to encode. Make sure your text contains only valid characters."
  const DecodeError: string := "Invalid Base64 string. Please check your input."
  const ReadError: string := "Failed to read file"

  /** `dataUrl.split(',')[1] || dataUrl`: the text after the first comma up
      to the next one, unless that is missing or empty. */
  function StripDataUrlPrefix(dataUrl: string): (data: string)
    ensures data == dataUrl || (data != "" && ',' !in data && |data| < |dataUrl|)
  {
    var parts := Split(dataUrl, ',');
    if |parts| > 1 && parts[1] != "" then
      JoinSplit(dataUrl, ',');
      assert Join(parts, ',') == parts[0] + [','] + Join(parts[1..], ',');
      assert |Join(parts[1..], ',')| >= |parts[1]| by {
        if |parts[1..]| > 1 {
          assert Join(parts[1..], ',') == parts[1] + [','] + Join(parts[2..], ',');
        }
      }
      parts[1]
    else dataUrl
  }

  /** The segment between the first and the second comma (or the end) is
      what remains when it is not empty. */
  lemma StripDataUrlSegment(prefix: string, segment: string, rest: string)
    requires ',' !in prefix && ',' !in segment && segment != ""
    requires rest == [] || rest[0] == ','
    ensures StripDataUrlPrefix(prefix + [','] + segment + rest) == segment
  {
    assert prefix + [','] + segment + rest == prefix + [','] + (segment + rest);
    SplitAtFirst(prefix, segment + rest, ',');
    SplitFirstPiece(segment, rest, ',');
  }

  /** With no comma, or nothing between the first comma and the next, the
      whole string is kept. */
  lemma StripDataUrlKeepsWhole(prefix: string, rest: string)
    requires ',' !in prefix
    requires rest == [] || rest[0] == ','
    ensures StripDataUrlPrefix(prefix) == prefix
    ensures StripDataUrlPrefix(prefix + [','] + rest) == prefix + [','] + rest
  {
    SplitNoSeparator(prefix, ',');
    SplitAtFirst(prefix, rest, ',');
    SplitFirstPiece([], rest, ',');
    assert [] + rest == rest;
  }

  /** A file the user picked: its name, the size label shown for it, and
      what `FileReader.readAsDataURL` produced (None when it failed). */
  datatype PickedFile = PickedFile(name: string, sizeLabel: string, dataUrl: Option<string>)

  class Base64Page {
    var mode: Mode
    var input: string
    var output: string
    var error: string
    var copied: bool
    var fileName: string

    constructor ()
      ensures mode == Encode && input == "" && output == "" && error == ""
      ensures !copied && fileName == ""
    {
      mode, input, output, error, copied, fileName := Encode, "", "", "", false, "";
    }

    method SetInput(text: string)
      modifies this
      ensures input == text
      ensures mode == old(mode) && output == old(output) && error == old(error)
      ensures copied == old(copied) && fileName == old(fileName)
    {
      input := text;
    }

    method HandleEncode(btoa: string -> Option<string>)
      modifies this
      ensures btoa(old(input)).Some? ==> error == "" && output == btoa(old(input)).value
      ensures btoa(old(input)).None? ==> error == EncodeError && output == ""
      ensures mode == old(mode) && input == old(input)
      ensures copied == old(copied) && fileName == old(fileName)
    {
      error := "";
      match btoa(input) {
        case Some(encoded) =>
          output := encoded;
        case None =>
          error := EncodeError;
          output := "";
      }
    }

    method HandleDecode(atob: string -> Option<string>)
      modifies this
      ensures atob(old(input)).Some? ==> error == "" && output == atob(old(input)).value
      ensures atob(old(input)).None? ==> error == DecodeError && output == ""
      ensures mode == old(mode) && input == old(input)
      ensures copied == old(copied) && fileName == old(fileName)
    {
      error := "";
      match atob(input) {
        case Some(decoded) =>
          output := decoded;
        case None =>
          error := DecodeError;
          output := "";
      }
    }

    /** The Encode/Decode button: runs the handler of the current mode. */
    method ProcessInput(btoa: string -> Option<string>, atob: string -> Option<string>)
      modifies this
      ensures old(mode) == Encode && btoa(old(input)).Some? ==> error == "" && output == btoa(old(input)).value
      ensures old(mode) == Encode && btoa(old(input)).None? ==> error == EncodeError && output == ""
      ensures old(mode) == Decode && atob(old(input)).Some? ==> error == "" && output == atob(old(input)).value
      ensures old(mode) == Decode && atob(old(input)).None? ==> error == DecodeError && output == ""
      ensures mode == old(mode) && input == old(input)
      ensures copied == old(copied) && fileName == old(fileName)
    {
      if mode == Encode {
        HandleEncode(btoa);
      } else {
        HandleDecode(atob);
      }
    }

    /** Upload: the file name is shown at once; when the read succeeds the
        output is the Base64 payload of the data URL and the input a label. */
    method HandleFileUpload(file: Option<PickedFile>)
      modifies this
      ensures file.None? ==>
        && mode == old(mode) && input == old(input) && output == old(output)
        && error == old(error) && copied == old(copied) && fileName == old(fileName)
      ensures file.Some? ==> fileName == file.value.name && mode == old(mode) && copied == old(copied)
      ensures file.Some? && file.value.dataUrl.Some? ==>
        && output == StripDataUrlPrefix(file.value.dataUrl.value)
        && input == "File: " + file.value.name + " (" + file.value.sizeLabel + " KB)"
        && error == ""
      ensures file.Some? && file.value.dataUrl.None? ==>
        error == ReadError && input == old(input) && output == old(output)
    {
      if file.None? {
        return;
      }
      var picked := file.value;
      fileName := picked.name;
      match picked.dataUrl {
        case Some(url) =>
          output := StripDataUrlPrefix(url);
          input := "File: " + picked.name + " (" + picked.sizeLabel + " KB)";
          error := "";
        case None =>
          error := ReadError;
      }
    }

    /** Removing the file empties the file name and the text fields. */
    method ClearFile()
      modifies this
      ensures fileName == "" && input == "" && output == "" && error == ""
      ensures mode == old(mode) && copied == old(copied)
    {
      fileName, input, output, error := "", "", "", "";
    }

    method CopyToClipboard(written: bool)
      modifies this
      ensures copied == (old(copied) || written)
      ensures mode == old(mode) && input == old(input) && output == old(output)
      ensures error == old(error) && fileName == old(fileName)
    {
      if written {
        copied := true;
      }
    }

    /** Clear: everything but the mode is reset. */
    method ClearAll()
      modifies this
      ensures input == "" && output == "" && error == "" && !copied && fileName == ""
      ensures mode == old(mode)
    {
      input, output, error, copied := "", "", "", false;
      ClearFile();
    }

    /** Switching mode resets every other field. */
    method SwitchMode(newMode: Mode)
      modifies this
      ensures mode == newMode
      ensures input == "" && output == "" && error == "" && !copied && fileName == ""
    {
      mode := newMode;
      input, output, error, copied := "", "", "", false;
      ClearFile();
    }
  }
}
