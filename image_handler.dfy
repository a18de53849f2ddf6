/** `save_image` (backend/utils/image_handler.py): the stored file name, the
    URL path returned to the caller, and whether the write can succeed at all.
    Creating the upload directory and writing the bytes are I/O and are not
    modelled; the clock reading `datetime.utcnow()` is the parameter `now`. */
module ImageHandler {
  import opened Wrappers
  import opened Decimal

  type Year = y: int | 1000 <= y <= 9999 witness 1000
  type Month = m: int | 1 <= m <= 12 witness 1
  type Day = d: int | 1 <= d <= 31 witness 1
  type Hour = h: int | 0 <= h < 24
  type Minute = m: int | 0 <= m < 60
  type Second = s: int | 0 <= s < 60
  type Microsecond = u: int | 0 <= u < 1000000

  /** A UTC instant as Python's `datetime` holds it. */
  datatype DateTime = DateTime(year: Year, month: Month, day: Day,
                               hour: Hour, minute: Minute, second: Second,
                               microsecond: Microsecond)

  /** `strftime("%Y%m%d%H%M%S%f")`: 4 + 2 + 2 + 2 + 2 + 2 + 6 digits. */
  function Timestamp(t: DateTime): (s: string)
    ensures |s| == 20 && AllDigits(s)
  {
    Padded(t.year, 4) + Padded(t.month, 2) + Padded(t.day, 2)
      + Padded(t.hour, 2) + Padded(t.minute, 2) + Padded(t.second, 2)
      + Padded(t.microsecond, 6)
  }

  /** Python's `s.replace(from, to)` for one-character `from` and `to`. */
  function Replace(s: string, from: char, to: char): (r: string)
    ensures |r| == |s|
    ensures forall i :: 0 <= i < |s| ==> r[i] == (if s[i] == from then to else s[i])
  {
    if s == [] then [] else [if s[0] == from then to else s[0]] + Replace(s[1..], from, to)
  }

  /** `file.filename.replace(" ", "_").replace("\\", "/")`. */
  function SafeName(filename: string): (r: string)
    ensures |r| == |filename|
    ensures ' ' !in r && '\\' !in r
  {
    Replace(Replace(filename, ' ', '_'), '\\', '/')
  }

  /** The name under which the upload is stored: `f"{timestamp}_{safe_name}"`:
      twenty digits, an underscore, then the sanitised name. */
  function StoredName(now: DateTime, filename: string): (s: string)
    ensures |s| == 21 + |filename|
    ensures AllDigits(s[..20]) && s[20] == '_' && s[21..] == SafeName(filename)
  {
    var t, safe := Timestamp(now), SafeName(filename);
    var s := t + "_" + safe;
    assert s[..20] == t && s[21..] == safe;
    s
  }

  /** What `save_image` returns: `f"/uploads/{filename.replace('\\', '/')}"`. */
  function SavedPath(now: DateTime, filename: string): (p: string)
    ensures |p| == 30 + |filename| && p[..9] == "/uploads/"
  {
    "/uploads/" + Replace(StoredName(now, filename), '\\', '/')
  }

  /** Whether the uploaded name holds a path separator. */
  predicate HasSeparator(filename: string) {
    '/' in filename || '\\' in filename
  }

  /** `save_image` as a whole.  A '/' in the stored name makes
      `os.path.join(UPLOAD_DIR, filename)` name a file inside a sub-directory of
      the upload directory, which `os.makedirs(UPLOAD_DIR)` never creates, so
      `open(path, "wb")` raises and nothing is returned.  That happens exactly
      when the uploaded name holds a '/' or a '\\'. */
  function SaveImage(now: DateTime, filename: string): (r: Option<string>)
    ensures r.None? <==> HasSeparator(filename)
    ensures r.Some? ==> r.value == SavedPath(now, filename)
  {
    SlashInStoredName(now, filename);
    if '/' in StoredName(now, filename) then None else Some(SavedPath(now, filename))
  }

  /** The stored name holds a '/' exactly when the uploaded name holds a separator. */
  lemma SlashInStoredName(now: DateTime, filename: string)
    ensures '/' in StoredName(now, filename) <==> HasSeparator(filename)
  {
    var s, safe := StoredName(now, filename), SafeName(filename);
    var spaced := Replace(filename, ' ', '_');
    assert forall i :: 0 <= i < |filename| ==> (safe[i] == '/' <==> filename[i] == '/' || filename[i] == '\\') by {
      forall i | 0 <= i < |filename| ensures safe[i] == '/' <==> filename[i] == '/' || filename[i] == '\\' {
        assert safe[i] == (if spaced[i] == '\\' then '/' else spaced[i]);
      }
    }
    if '/' in s {
      var i :| 0 <= i < |s| && s[i] == '/';
      if i > 20 {
        assert s[21..][i - 21] == '/';
      }
    }
    if HasSeparator(filename) {
      var i :| 0 <= i < |filename| && (filename[i] == '/' || filename[i] == '\\');
      assert s[21..][i] == s[21 + i];
    }
  }

  lemma ReplaceAbsent(s: string, from: char, to: char)
    requires from !in s
    ensures Replace(s, from, to) == s
  {
  }

  lemma ReplaceAppend(x: string, y: string, from: char, to: char)
    ensures Replace(x + y, from, to) == Replace(x, from, to) + Replace(y, from, to)
  {
    var l, r := Replace(x + y, from, to), Replace(x, from, to) + Replace(y, from, to);
    assert forall i :: 0 <= i < |l| ==> l[i] == r[i] by {
      forall i | 0 <= i < |l| ensures l[i] == r[i] {
        if i >= |x| { assert (x + y)[i] == y[i - |x|]; }
      }
    }
  }

  /** A backslash in the uploaded name becomes a '/' of the stored name. */
  lemma SafeNameAroundBackslash(a: string, b: string)
    ensures SafeName(a + "\\" + b) == SafeName(a) + "/" + SafeName(b)
  {
    ReplaceAppend(a + "\\", b, ' ', '_');
    ReplaceAppend(a, "\\", ' ', '_');
    var a1, b1 := Replace(a, ' ', '_'), Replace(b, ' ', '_');
    ReplaceAppend(a1 + "\\", b1, '\\', '/');
    ReplaceAppend(a1, "\\", '\\', '/');
  }

  /** The final replace in the returned path never changes anything: the stored
      name already holds no backslash, so the path is "/uploads/" + stored name. */
  lemma SavedPathIsStoredName(now: DateTime, filename: string)
    ensures SavedPath(now, filename) == "/uploads/" + StoredName(now, filename)
    ensures '\\' !in SavedPath(now, filename)
  {
    var n := StoredName(now, filename);
    assert forall i :: 0 <= i < |n| ==> n[i] != '\\' by {
      forall i | 0 <= i < |n| ensures n[i] != '\\' {
        if i > 20 { assert n[i] == SafeName(filename)[i - 21]; }
      }
    }
    ReplaceAbsent(n, '\\', '/');
  }

  /** Every returned path is "/uploads/", twenty digits, "_", then the
      sanitised name, which is as long as the uploaded file name. */
  lemma SavedPathShape(now: DateTime, filename: string)
    ensures var p := SavedPath(now, filename);
      && |p| == 30 + |filename|
      && p[..9] == "/uploads/"
      && AllDigits(p[9..29])
      && p[29] == '_'
      && p[30..] == SafeName(filename)
  {
    SavedPathIsStoredName(now, filename);
    var t, safe := Timestamp(now), SafeName(filename);
    var p := "/uploads/" + t + "_" + safe;
    assert SavedPath(now, filename) == p;
    assert p[9..29] == t;
    assert p[30..] == safe;
  }
}
