/**
 * The browser upload form: guessing the data type from the first selected
 * file's name, and the state the form's handlers change (the selected type,
 * the file label, the error text and the upload button).
 *
 * The network requests themselves are not modelled: submitting yields the
 * request the form would send.
 */
module UploadForm {
  import opened Tables
  import opened Numeric
  import RunProcessor
  import Api

  // ---------------------------------------------------------------------
  // Data-type detection
  // ---------------------------------------------------------------------

  function LowerChar(c: char): char
  {
    if 'A' <= c <= 'Z' then (c as int + 32) as char else c
  }

  /** `toLowerCase()` on the ASCII letters. */
  function ToLower(s: string): (r: string)
    ensures |r| == |s|
    ensures forall i :: 0 <= i < |s| ==> r[i] == LowerChar(s[i])
    ensures forall i :: 0 <= i < |r| ==> !('A' <= r[i] <= 'Z')
  {
    seq(|s|, i requires 0 <= i < |s| => LowerChar(s[i]))
  }

  predicate IsLower(s: string)
  {
    forall i :: 0 <= i < |s| ==> LowerChar(s[i]) == s[i]
  }

  lemma ToLowerIdempotent(s: string)
    ensures ToLower(ToLower(s)) == ToLower(s)
  {
  }

  /** A lower-case word in a name is still there once the name is lower-cased. */
  lemma ContainsLower(s: string, word: string)
    requires IsLower(word) && Contains(s, word)
    ensures Contains(ToLower(s), word)
  {
    ContainsAt(s, word);
    var i :| OccursAt(s, word, i);
    assert ToLower(s)[i..i + |word|] == word;
    assert OccursAt(ToLower(s), word, i);
    ContainsAt(ToLower(s), word);
  }

  /** The values the form's data-type select takes. */
  predicate IsFormType(t: string)
  {
    t == "auto" || t == "occupancy" || t == "sales" || t == "member" || t == "reservation"
  }

  /**
   * The guess from a file name: `frame` or `occupancy` first, then `sales`,
   * `member` and `reservation`, matched in the lower-cased name; `auto` when
   * none occurs.
   */
  function DetectDataType(name: string): (t: string)
    ensures IsFormType(t)
    ensures var lower := ToLower(name);
      && (t == "occupancy" <==> Contains(lower, "frame") || Contains(lower, "occupancy"))
      && (t == "sales" <==> !Contains(lower, "frame") && !Contains(lower, "occupancy") && Contains(lower, "sales"))
      && (t == "member" <==>
            !Contains(lower, "frame") && !Contains(lower, "occupancy") && !Contains(lower, "sales") &&
            Contains(lower, "member"))
      && (t == "reservation" <==>
            !Contains(lower, "frame") && !Contains(lower, "occupancy") && !Contains(lower, "sales") &&
            !Contains(lower, "member") && Contains(lower, "reservation"))
  {
    var lower := ToLower(name);
    if Contains(lower, "frame") || Contains(lower, "occupancy") then "occupancy"
    else if Contains(lower, "sales") then "sales"
    else if Contains(lower, "member") then "member"
    else if Contains(lower, "reservation") then "reservation"
    else "auto"
  }

  /** Letter case never changes the guess. */
  lemma DetectIgnoresCase(name: string)
    ensures DetectDataType(ToLower(name)) == DetectDataType(name)
  {
    ToLowerIdempotent(name);
  }

  /** `frame` anywhere in a name wins over every other word in it. */
  lemma FrameWins(before: string, after: string)
    ensures DetectDataType(before + "frame" + after) == "occupancy"
  {
    ContainsWithin(before, "frame", after, "frame");
    ContainsLower(before + "frame" + after, "frame");
  }

  /** Without `frame` or `occupancy`, `sales` anywhere wins over `member` and `reservation`. */
  lemma SalesWins(before: string, after: string)
    requires !Contains(ToLower(before + "sales" + after), "frame")
    requires !Contains(ToLower(before + "sales" + after), "occupancy")
    ensures DetectDataType(before + "sales" + after) == "sales"
  {
    ContainsWithin(before, "sales", after, "sales");
    ContainsLower(before + "sales" + after, "sales");
  }

  /** A file the batch script would load as frame data is guessed as occupancy data. */
  lemma FrameFilesGuessedAsOccupancy(listing: seq<string>, name: string)
    requires name in RunProcessor.SortedNames(listing, "frame")
    ensures DetectDataType(name) == "occupancy"
  {
    ContainsLower(name, "frame");
  }

  /**
   * The single-file upload sends its type as a form field, which the
   * handler does not read: it sees no `data_type` query parameter and
   * processes the file as members. Nor would any value of the select name
   * a section if it did reach the handler.
   */
  lemma FormTypesNotDispatched(t: string)
    requires IsFormType(t)
    ensures Api.DataTypeOf(t).None?
    ensures Api.DataTypeOf(Api.RequestedType(None)) == Some(Api.MembersData)
  {
  }

  // ---------------------------------------------------------------------
  // Form state
  // ---------------------------------------------------------------------

  const NoFile := "なし"
  const NoFileError := "ファイルを選択してください"
  const UploadLabel := "アップロード"
  const UploadingLabel := "アップロード中..."

  /** The upload the form starts on submit. */
  datatype Request =
    | NoRequest
    | Single(file: string, dataType: string)           // POST /api/upload-csv
    | Multiple(files: seq<string>, dataType: string)   // POST /api/upload-multiple-csv

  /** The label shown for a selection. */
  function SelectionLabel(files: seq<string>): (shown: string)
    ensures |files| == 1 ==> shown == files[0]
    ensures |files| == 0 ==> shown == NoFile
  {
    if |files| == 0 then NoFile
    else if |files| == 1 then files[0]
    else NatToString(|files|) + "個のファイルが選択されました"
  }

  class Form {
    var files: seq<string>          // names of the selected files, in selection order
    var dataType: string            // the data-type select
    var selectedFilename: string    // the label next to the file input
    var uploadError: string
    var buttonDisabled: bool
    var buttonText: string
    var progress: string            // the progress bar's width, when the page has one
    const hasProgress: bool

    /** The select holds one of its options, and the button's label matches its state. */
    ghost predicate Valid()
      reads this
    {
      && IsFormType(dataType)
      && (buttonDisabled <==> buttonText == UploadingLabel)
      && (!buttonDisabled ==> buttonText == UploadLabel)
    }

    constructor(hasProgressBar: bool)
      ensures Valid()
      ensures files == [] && dataType == "auto" && selectedFilename == NoFile && uploadError == ""
      ensures !buttonDisabled && hasProgress == hasProgressBar
    {
      files := [];
      dataType := "auto";
      selectedFilename := NoFile;
      uploadError := "";
      buttonDisabled := false;
      buttonText := UploadLabel;
      progress := "0%";
      hasProgress := hasProgressBar;
    }

    /** The file input's `change` handler. */
    method OnFilesChanged(selection: seq<string>)
      requires Valid()
      modifies this`files, this`dataType, this`selectedFilename, this`uploadError
      ensures Valid()
      ensures files == selection && selectedFilename == SelectionLabel(selection)
      ensures |selection| > 0 ==> dataType == DetectDataType(selection[0]) && uploadError == ""
      ensures |selection| == 0 ==> dataType == old(dataType) && uploadError == old(uploadError)
    {
      files := selection;
      if |files| > 0 {
        selectedFilename := SelectionLabel(files);
        uploadError := "";
        dataType := DetectDataType(files[0]);
      } else {
        selectedFilename := NoFile;
      }
    }

    /** The cancel button: selection, label, error and type back to their start. */
    method Cancel()
      requires Valid()
      modifies this`files, this`dataType, this`selectedFilename, this`uploadError, this`progress
      ensures Valid()
      ensures files == [] && selectedFilename == NoFile && uploadError == "" && dataType == "auto"
      ensures progress == if hasProgress then "0%" else old(progress)
    {
      files := [];
      selectedFilename := NoFile;
      uploadError := "";
      dataType := "auto";
      if hasProgress {
        progress := "0%";
      }
    }

    /**
     * The form's `submit` handler: with nothing selected it only shows an
     * error; otherwise it disables the button and sends one file or all.
     */
    method Submit() returns (request: Request)
      requires Valid()
      modifies this`uploadError, this`buttonDisabled, this`buttonText, this`progress
      ensures Valid()
      ensures |files| == 0 ==>
        request == NoRequest && uploadError == NoFileError &&
        buttonDisabled == old(buttonDisabled) && progress == old(progress)
      ensures |files| == 1 ==> request == Single(files[0], dataType)
      ensures |files| > 1 ==> request == Multiple(files, dataType)
      ensures |files| > 0 ==>
        buttonDisabled && uploadError == old(uploadError) &&
        progress == (if hasProgress then "0%" else old(progress))
      ensures request.Single? || request.Multiple? ==> IsFormType(request.dataType)
    {
      if |files| == 0 {
        uploadError := NoFileError;
        return NoRequest;
      }
      buttonDisabled := true;
      buttonText := UploadingLabel;
      if hasProgress {
        progress := "0%";
      }
      if |files| > 1 {
        request := Multiple(files, dataType);
      } else {
        request := Single(files[0], dataType);
      }
    }

    /** The `finally` of an upload, whatever its outcome: the button comes back. */
    method Settle()
      requires Valid()
      modifies this`buttonDisabled, this`buttonText
      ensures Valid()
      ensures !buttonDisabled && buttonText == UploadLabel
    {
      buttonDisabled := false;
      buttonText := UploadLabel;
    }
  }
}
