/** The decision logic of the management web application: which uploads are
    accepted, the role check, and the two guarded deletions. Templates,
    redirects, flashed messages and the database session are not modelled;
    a table is a map from primary key to row. */
module Routes {

  import opened Wrappers
  import PyText

  const UploadAllowedExtensions: set<string> := {"wav", "mp3"}

  /** `allowed_file`: the name has a dot, and the text after the last dot,
      lower-cased, is an allowed extension. */
  predicate AllowedFile(filename: string)
  {
    '.' in filename
    && PyText.Lower(PyText.RSplitOnce(filename, '.')[1]) in UploadAllowedExtensions
  }

  /** `filename` is `stem` and `ext` joined by a dot, with no dot in `ext`. */
  predicate SplitsAt(filename: string, stem: string, ext: string)
  {
    filename == stem + "." + ext && '.' !in ext
  }

  /** Two ways of cutting a string at a dot with no dot after it agree. */
  lemma LastDotUnique(a: string, b: string, c: string, d: string)
    requires a + "." + b == c + "." + d && '.' !in b && '.' !in d
    ensures a == c && b == d
  {
    var s := a + "." + b;
    assert s[|s| - 1 - |b|] == '.' && s[|s| - 1 - |d|] == '.';
    assert b == s[|s| - |b|..] == d;
    assert a == s[..|a|] == c;
  }

  /** `rsplit('.', 1)` finds the last dot. */
  lemma ExtensionAfterLastDot(filename: string, stem: string, ext: string)
    requires SplitsAt(filename, stem, ext)
    ensures '.' in filename
    ensures PyText.RSplitOnce(filename, '.') == [stem, ext]
  {
    assert filename[|stem|] == '.';
    var r := PyText.RSplitOnce(filename, '.');
    LastDotUnique(r[0], r[1], stem, ext);
  }

  /** The upload check stated without `rsplit`: some cut of the name at a
      dot leaves, after it, a dot-free allowed extension (in any case). */
  lemma AllowedFileIff(filename: string)
    ensures AllowedFile(filename) <==>
      exists stem, ext :: SplitsAt(filename, stem, ext) && PyText.Lower(ext) in UploadAllowedExtensions
  {
    if AllowedFile(filename) {
      var r := PyText.RSplitOnce(filename, '.');
      assert SplitsAt(filename, r[0], r[1]);
    }
    if exists stem, ext :: SplitsAt(filename, stem, ext) && PyText.Lower(ext) in UploadAllowedExtensions {
      var stem, ext :| SplitsAt(filename, stem, ext) && PyText.Lower(ext) in UploadAllowedExtensions;
      ExtensionAfterLastDot(filename, stem, ext);
    }
  }

  /** Only the final extension counts: `a.wav.exe` is refused. */
  lemma InnerExtensionIgnored()
    ensures !AllowedFile("a.wav.exe")
  {
    ExtensionAfterLastDot("a.wav.exe", "a.wav", "exe");
    var e := PyText.Lower("exe");
    assert e[0] == 'e';
  }

  /** The extension's case does not matter: `a.exe.MP3` is accepted. */
  lemma UpperCaseExtension()
    ensures AllowedFile("a.exe.MP3")
  {
    ExtensionAfterLastDot("a.exe.MP3", "a.exe", "MP3");
    var m := PyText.Lower("MP3");
    assert m[0] == 'm' && m[1] == 'p' && m[2] == '3';
    assert m == "mp3";
  }

  /** A name without a dot is refused even when it spells an extension. */
  lemma NoDotRefused()
    ensures !AllowedFile("wav")
  {
    assert "wav"[0] != '.' && "wav"[1] != '.' && "wav"[2] != '.';
  }

  /** A trailing dot leaves an empty extension, which is refused. */
  lemma TrailingDotRefused()
    ensures !AllowedFile("a.")
  {
    ExtensionAfterLastDot("a.", "a", "");
  }

  /** `auth`: the current user's role reaches the required level. */
  predicate Auth(role: int, requiredLevel: int)
  {
    role >= requiredLevel
  }

  /** A role that passes a level passes every lower level, and every higher
      role passes it too. */
  lemma AuthMonotone(role: int, level: int, role': int, level': int)
    requires Auth(role, level) && level' <= level && role <= role'
    ensures Auth(role', level')
  {
  }

  /** How a delete request ends: the 404 page, the refusal flashed back to
      the list, or the row deleted and committed. */
  datatype Deletion = NotFound | Refused | Deleted

  datatype User = User(name: string, email: string, role: int, isLocked: bool)

  /** `delete_user`: look the row up (404 when missing), refuse to delete the
      signed-in user, otherwise delete it. */
  function DeleteUser(users: map<int, User>, currentId: int, userId: int): (r: (Deletion, map<int, User>))
    ensures r.0 == NotFound <==> userId !in users
    ensures r.0 == Refused <==> userId in users && userId == currentId
    ensures r.0 == Deleted ==> r.1 == users - {userId}
    ensures r.0 != Deleted ==> r.1 == users
  {
    if userId !in users then (NotFound, users)
    else if userId == currentId then (Refused, users)
    else (Deleted, map id | id in users && id != userId :: users[id])
  }

  /** Whatever is asked, the signed-in user's own row survives unchanged,
      and at most one row goes. */
  lemma CurrentUserSurvives(users: map<int, User>, currentId: int, userId: int)
    requires currentId in users
    ensures currentId in DeleteUser(users, currentId, userId).1
    ensures DeleteUser(users, currentId, userId).1[currentId] == users[currentId]
    ensures DeleteUser(users, currentId, userId).1.Keys <= users.Keys
    ensures users.Keys - DeleteUser(users, currentId, userId).1.Keys <= {userId}
  {
  }

  datatype Category = Category(name: string, color: Option<string>)

  /** A row of the cuts table, with the foreign key into the categories. */
  datatype CutRow = CutRow(cut: int, category: int)

  /** `category.cuts`: the cut rows that refer to the category. */
  function CategoryCuts(cuts: map<int, CutRow>, categoryId: int): set<int>
  {
    set id | id in cuts && cuts[id].category == categoryId
  }

  /** `delete_category`: look the row up (404 when missing), refuse while any
      cut refers to it, otherwise delete it. */
  function DeleteCategory(categories: map<int, Category>, cuts: map<int, CutRow>, categoryId: int)
    : (r: (Deletion, map<int, Category>))
    ensures r.0 == NotFound <==> categoryId !in categories
    ensures r.0 == Refused <==> categoryId in categories && CategoryCuts(cuts, categoryId) != {}
    ensures r.0 == Deleted ==> r.1 == categories - {categoryId}
    ensures r.0 != Deleted ==> r.1 == categories
  {
    if categoryId !in categories then (NotFound, categories)
    else if |CategoryCuts(cuts, categoryId)| > 0 then (Refused, categories)
    else (Deleted, map id | id in categories && id != categoryId :: categories[id])
  }

  /** Every cut refers to an existing category. */
  ghost predicate ReferencesIntact(categories: map<int, Category>, cuts: map<int, CutRow>)
  {
    forall id :: id in cuts ==> cuts[id].category in categories
  }

  /** The guard keeps the cuts' foreign keys valid: deleting a category never
      leaves a cut pointing at a missing one. */
  lemma DeleteCategoryKeepsReferences(categories: map<int, Category>, cuts: map<int, CutRow>, categoryId: int)
    requires ReferencesIntact(categories, cuts)
    ensures ReferencesIntact(DeleteCategory(categories, cuts, categoryId).1, cuts)
  {
    var r := DeleteCategory(categories, cuts, categoryId);
    if r.0 == Deleted {
      forall id | id in cuts ensures cuts[id].category in r.1 {
        assert id !in CategoryCuts(cuts, categoryId);
      }
    }
  }
}
