/**
 * The small free functions of utils_simplified.cpp: the colour / spherical-harmonics
 * conversions (both identities for now), the file-extension classifier used to pick a
 * loader, and the area of a triangle given as three float vectors.
 */
module UtilsSimplified {
  import opened Glm
  import opened Wrappers

  /** getShFromColor: colour to degree-0 spherical-harmonics coefficients (the identity for now). */
  function GetShFromColor(color: Vec3): Vec3 { color }

  /** getColorFromSh: the inverse conversion (the identity for now). */
  function GetColorFromSh(sh: Vec3): Vec3 { sh }

  lemma ShRoundTrips(color: Vec3, sh: Vec3)
    ensures GetColorFromSh(GetShFromColor(color)) == color
    ensures GetShFromColor(GetColorFromSh(sh)) == sh
  {
  }

  /** ::tolower in the "C" locale: only 'A'..'Z' change. */
  function ToLowerChar(c: char): (l: char)
    ensures 'A' <= c <= 'Z' ==> 'a' <= l <= 'z' && l as int - c as int == 32
    ensures !('A' <= c <= 'Z') ==> l == c
  {
    if 'A' <= c <= 'Z' then (c as int + 32) as char else c
  }

  /** std::transform of a string with ::tolower. */
  function ToLower(s: string): (r: string)
    ensures |r| == |s|
    ensures forall i :: 0 <= i < |s| ==> r[i] == ToLowerChar(s[i])
  {
    seq(|s|, i requires 0 <= i < |s| => ToLowerChar(s[i]))
  }

  /** Position of the last '.' of `s`: std::string::find_last_of('.'), with None for npos. */
  function LastDot(s: string): (r: Option<nat>)
    ensures r.None? <==> forall i :: 0 <= i < |s| ==> s[i] != '.'
    ensures r.Some? ==> r.value < |s| && s[r.value] == '.'
    ensures r.Some? ==> forall j :: r.value < j < |s| ==> s[j] != '.'
  {
    if |s| == 0 then None
    else if s[|s| - 1] == '.' then Some(|s| - 1)
    else
      var r := LastDot(s[..|s| - 1]);
      assert forall i :: 0 <= i < |s| - 1 ==> s[..|s| - 1][i] == s[i];
      r
  }

  /** getFileExtension: "ply" or "glb" for those extensions in any letter case, "none" otherwise. */
  function GetFileExtension(filename: string): (r: string)
    ensures r == "ply" || r == "glb" || r == "none"
  {
    if |filename| == 0 then "none"
    else match LastDot(filename)
      case None => "none"
      case Some(dot) =>
        var extension := ToLower(filename[dot + 1..]);
        if extension == "ply" then "ply"
        else if extension == "glb" then "glb"
        else "none"
  }

  /** `ext` is, lower-cased, the text after the last '.' of `filename`. */
  ghost predicate HasExtension(filename: string, ext: string) {
    exists dot ::
      && 0 <= dot < |filename|
      && filename[dot] == '.'
      && (forall j :: dot < j < |filename| ==> filename[j] != '.')
      && ToLower(filename[dot + 1..]) == ext
  }

  /** A name with no '.' at all, the empty name included, is classified "none". */
  lemma NoDotMeansNone(filename: string)
    requires forall i :: 0 <= i < |filename| ==> filename[i] != '.'
    ensures GetFileExtension(filename) == "none"
  {
  }

  /** The last dot of a name is the only dot that `HasExtension` can pick. */
  lemma LastDotUnique(filename: string, dot: nat)
    requires dot < |filename| && filename[dot] == '.'
    requires forall j :: dot < j < |filename| ==> filename[j] != '.'
    ensures LastDot(filename) == Some(dot)
  {
  }

  /**
   * The classifier answers "ply" (or "glb") exactly when the lower-cased text after the
   * last '.' is "ply" (or "glb").
   */
  lemma ExtensionCharacterised(filename: string, ext: string)
    requires ext == "ply" || ext == "glb"
    ensures GetFileExtension(filename) == ext <==> HasExtension(filename, ext)
  {
    if GetFileExtension(filename) == ext {
      ExtensionFound(filename, ext);
    }
    if HasExtension(filename, ext) {
      ExtensionRecognised(filename, ext);
    }
  }

  lemma ExtensionFound(filename: string, ext: string)
    requires ext == "ply" || ext == "glb"
    requires GetFileExtension(filename) == ext
    ensures HasExtension(filename, ext)
  {
    assert ext != "none" by { assert ext[0] != "none"[0]; }
    var dot := LastDot(filename).value;
    var extension := ToLower(filename[dot + 1..]);
    assert extension == ext;
  }

  lemma ExtensionRecognised(filename: string, ext: string)
    requires ext == "ply" || ext == "glb"
    requires HasExtension(filename, ext)
    ensures GetFileExtension(filename) == ext
  {
    var dot :| && 0 <= dot < |filename|
               && filename[dot] == '.'
               && (forall j :: dot < j < |filename| ==> filename[j] != '.')
               && ToLower(filename[dot + 1..]) == ext;
    ExtensionAtLastDot(filename, dot);
  }

  /** Given its last dot, a name is classified by the lower-cased text after it. */
  lemma ExtensionAtLastDot(filename: string, dot: nat)
    requires dot < |filename| && filename[dot] == '.'
    requires forall j :: dot < j < |filename| ==> filename[j] != '.'
    ensures var extension := ToLower(filename[dot + 1..]);
      GetFileExtension(filename)
        == if extension == "ply" then "ply" else if extension == "glb" then "glb" else "none"
  {
    LastDotUnique(filename, dot);
  }

  /** A name ending in '.' and a dot-free extension is classified by that extension alone. */
  lemma ExtensionAfterLastDot(stem: string, extension: string)
    requires forall j :: 0 <= j < |extension| ==> extension[j] != '.'
    ensures GetFileExtension(stem + ['.'] + extension)
         == if ToLower(extension) == "ply" then "ply" else if ToLower(extension) == "glb" then "glb" else "none"
  {
    var name := stem + ['.'] + extension;
    forall j | |stem| < j < |name|
      ensures name[j] != '.'
    {
      assert name[j] == extension[j - |stem| - 1];
    }
    assert name[|stem| + 1..] == extension;
    LastDotUnique(name, |stem|);
  }

  /** Only the last dot counts: an earlier ".glb" is ignored. */
  lemma LastDotDecides(stem: string)
    ensures GetFileExtension(stem + ".glb.PLY") == "ply"
  {
    ExtensionAfterLastDot(stem + ".glb", "PLY");
    assert stem + ".glb" + ['.'] + "PLY" == stem + ".glb.PLY";
    assert ToLower("PLY") == "ply";
  }

  /** The extension is compared without regard to case. */
  lemma UpperCaseExtensionRecognised(stem: string)
    ensures GetFileExtension(stem + ".GLB") == "glb"
  {
    ExtensionAfterLastDot(stem, "GLB");
    assert stem + ['.'] + "GLB" == stem + ".GLB";
    assert ToLower("GLB") == "glb";
  }

  /** A known extension followed by another one is not recognised. */
  lemma OtherLastExtensionIsNone(stem: string)
    ensures GetFileExtension(stem + ".ply.zip") == "none"
  {
    ExtensionAfterLastDot(stem + ".ply", "zip");
    assert stem + ".ply" + ['.'] + "zip" == stem + ".ply.zip";
    assert ToLower("zip") == "zip";
    assert "zip" != "ply" && "zip" != "glb";
  }

  /** glm::vec3(A[0], A[1], A[2]). */
  function Vec3Of(a: seq<real>): Vec3
    requires |a| >= 3
  {
    Vec3(a[0], a[1], a[2])
  }

  /** triangleArea: half the length of the cross product of two edges; 0 for a short argument. */
  function TriangleArea(ops: Ops, a: seq<real>, b: seq<real>, c: seq<real>): real {
    if |a| < 3 || |b| < 3 || |c| < 3 then 0.0
    else
      var ab := Sub3(Vec3Of(b), Vec3Of(a));
      var ac := Sub3(Vec3Of(c), Vec3Of(a));
      0.5 * ops.Length3(Cross(ab, ac))
  }

  lemma ShortArgumentHasNoArea(ops: Ops, a: seq<real>, b: seq<real>, c: seq<real>)
    requires |a| < 3 || |b| < 3 || |c| < 3
    ensures TriangleArea(ops, a, b, c) == 0.0
  {
  }

  lemma AreaNonNegative(ops: Ops, a: seq<real>, b: seq<real>, c: seq<real>)
    requires ops.Valid()
    ensures TriangleArea(ops, a, b, c) >= 0.0
  {
    if |a| >= 3 && |b| >= 3 && |c| >= 3 {
      LengthNonNegative(ops, Cross(Sub3(Vec3Of(b), Vec3Of(a)), Sub3(Vec3Of(c), Vec3Of(a))));
    }
  }

  /** A triangle with two coincident corners has area 0. */
  lemma CoincidentCornersHaveNoArea(ops: Ops, a: seq<real>, b: seq<real>, c: seq<real>)
    requires ops.Valid()
    requires |a| >= 3 && |b| >= 3 && |c| >= 3
    requires Vec3Of(a) == Vec3Of(b) || Vec3Of(b) == Vec3Of(c) || Vec3Of(a) == Vec3Of(c)
    ensures TriangleArea(ops, a, b, c) == 0.0
  {
    var ab := Sub3(Vec3Of(b), Vec3Of(a));
    var ac := Sub3(Vec3Of(c), Vec3Of(a));
    if Vec3Of(a) == Vec3Of(b) {
      assert ab == Zero3;
    } else if Vec3Of(a) == Vec3Of(c) {
      assert ac == Zero3;
    } else {
      assert ab == ac;
      CrossOfParallel(ab, 1.0);
      assert Scale3(1.0, ab) == ab;
    }
    assert Cross(ab, ac) == Zero3;
    LengthOfZero(ops);
  }
}
