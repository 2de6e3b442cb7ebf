/** The prediction history of prediction.py: a JSON list in a file, appended to by
    save_prediction, read by load_history and get_user_history, removed by clear_history. */
module History {

  /** One saved prediction. */
  datatype Prediction = Prediction(
    username: string, timestamp: string, videoFilename: string,
    fertilityPercentage: real, recommendation: string)

  /** The history file: missing, present but not readable as JSON, or holding a list. */
  datatype HistoryFile = Absent | Unreadable | Stored(records: seq<Prediction>)

  /** load_history: the stored list, or [] when the file is missing or does not decode. */
  function Load(file: HistoryFile): seq<Prediction>
  {
    if file.Stored? then file.records else []
  }

  /** The get_user_history comprehension `[h for h in history if h.get('username') == u]`. */
  function UserHistory(records: seq<Prediction>, u: string): seq<Prediction>
  {
    if records == [] then []
    else
      var last := records[|records| - 1];
      UserHistory(records[..|records| - 1], u) + (if last.username == u then [last] else [])
  }

  /** A user's history holds exactly the records saved under that name. */
  lemma {:induction false} UserHistoryMembers(records: seq<Prediction>, u: string)
    ensures forall p :: p in UserHistory(records, u) <==> p in records && p.username == u
  {
    if records != [] {
      var init, last := records[..|records| - 1], records[|records| - 1];
      UserHistoryMembers(init, u);
      assert records == init + [last];
    }
  }

  /** A user's history is no longer than the whole history, and filtering it again for the
      same user changes nothing: every record in it already carries that name. */
  lemma {:induction false} UserHistoryIdempotent(records: seq<Prediction>, u: string)
    ensures |UserHistory(records, u)| <= |records|
    ensures UserHistory(UserHistory(records, u), u) == UserHistory(records, u)
  {
    if records != [] {
      var init, last := records[..|records| - 1], records[|records| - 1];
      UserHistoryIdempotent(init, u);
      var tail := if last.username == u then [last] else [];
      UserHistoryAppend(UserHistory(init, u), tail, u);
      assert UserHistory(tail, u) == tail by {
        if tail != [] {
          assert tail[..0] == [];
        }
      }
    }
  }

  /** Filtering distributes over concatenation. */
  lemma {:induction false} UserHistoryAppend(a: seq<Prediction>, b: seq<Prediction>, u: string)
    ensures UserHistory(a + b, u) == UserHistory(a, u) + UserHistory(b, u)
    decreases |b|
  {
    if b == [] {
      assert a + b == a;
    } else {
      var init, last := b[..|b| - 1], b[|b| - 1];
      assert (a + b)[..|a + b| - 1] == a + init;
      UserHistoryAppend(a, init, u);
    }
  }

  /** Saving a record for user `v` adds it to v's history and changes no other user's. */
  lemma SaveAddsToOwnHistoryOnly(records: seq<Prediction>, p: Prediction, u: string)
    ensures UserHistory(records + [p], u)
            == UserHistory(records, u) + (if p.username == u then [p] else [])
  {
    assert (records + [p])[..|records|] == records;
  }

  /** The history file, as one object whose methods read and rewrite it. */
  class HistoryStore {
    var file: HistoryFile

    constructor (file: HistoryFile)
      ensures this.file == file
    {
      this.file := file;
    }

    function Contents(): seq<Prediction>
      reads this
    {
      Load(file)
    }

    /** save_prediction: load, append exactly one record, write the whole list back. A file
        that did not decode is replaced by the one-record list. */
    method SavePrediction(username: string, videoFilename: string, fertility: real,
                          recommendation: string, now: string)
      modifies this
      ensures file == Stored(old(Contents()) + [Prediction(username, now, videoFilename, fertility, recommendation)])
      ensures |Contents()| == |old(Contents())| + 1
      ensures Contents()[..|old(Contents())|] == old(Contents())
    {
      var history := Load(file);
      history := history + [Prediction(username, now, videoFilename, fertility, recommendation)];
      assert history[..|history| - 1] == Load(file);
      file := Stored(history);
    }

    /** load_history. */
    method LoadHistory() returns (history: seq<Prediction>)
      ensures history == Load(file)
      ensures file.Stored? ==> history == file.records
      ensures !file.Stored? ==> history == []
    {
      if file.Stored? {
        history := file.records;
      } else {
        history := [];
      }
    }

    /** clear_history: the file is removed, so a later load returns the empty list. */
    method ClearHistory()
      modifies this
      ensures file == Absent && Contents() == []
    {
      if file != Absent {
        file := Absent;
      }
    }

    /** get_user_history. */
    method GetUserHistory(u: string) returns (history: seq<Prediction>)
      ensures history == UserHistory(Load(file), u)
    {
      var all := LoadHistory();
      history := UserHistory(all, u);
    }
  }
}
