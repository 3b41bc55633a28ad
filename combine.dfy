/** `combine_audio_segments`: concatenates segment files, in list order, into
    one chunk file and deletes each segment it consumed. */
module Combine {
  import opened Common

  /** The contents of the listed files that exist, in list order. */
  function Present(fs: FileSystem, paths: seq<string>): seq<Bytes>
  {
    if paths == [] then []
    else if paths[0] in fs then [fs[paths[0]]] + Present(fs, paths[1..])
    else Present(fs, paths[1..])
  }

  predicate Distinct(paths: seq<string>)
  {
    forall i, j :: 0 <= i < j < |paths| ==> paths[i] != paths[j]
  }

  /** The `for segment_path in segment_paths` loop, with the output file open:
      a missing input is skipped, an existing one is appended to the output
      and then removed. */
  function CombineLoop(fs: FileSystem, paths: seq<string>, out: string): (r: FileSystem)
    requires out in fs && out !in paths
    ensures out in r
  {
    if paths == [] then fs
    else if paths[0] !in fs then CombineLoop(fs, paths[1..], out)
    else CombineLoop(fs[out := fs[out] + fs[paths[0]]] - {paths[0]}, paths[1..], out)
  }

  /** `combine_audio_segments(segment_paths, output_path)`: `open(output_path, "wb")`
      creates or truncates the output, then the loop runs. */
  function CombineAudioSegments(fs: FileSystem, paths: seq<string>, out: string): (r: FileSystem)
    requires out !in paths
  {
    CombineLoop(fs[out := []], paths, out)
  }

  lemma {:induction false} PresentAgree(fs: FileSystem, gs: FileSystem, paths: seq<string>)
    requires forall q :: q in paths ==> (q in fs <==> q in gs) && (q in fs ==> fs[q] == gs[q])
    ensures Present(fs, paths) == Present(gs, paths)
  {
    if paths != [] {
      assert paths[0] in paths;
      PresentAgree(fs, gs, paths[1..]);
    }
  }

  /** With distinct inputs, the output holds its old content followed by the
      concatenation, in list order, of the inputs that exist; the inputs are
      gone; every other file is untouched. */
  lemma {:induction false} CombineLoopContents(fs: FileSystem, paths: seq<string>, out: string)
    requires out in fs && out !in paths && Distinct(paths)
    ensures var r := CombineLoop(fs, paths, out);
      && r[out] == fs[out] + Flatten(Present(fs, paths))
      && (forall q :: q in paths ==> q !in r)
      && (forall q :: q !in paths && q != out ==> (q in r <==> q in fs) && (q in r ==> r[q] == fs[q]))
  {
    if paths == [] {
      assert Present(fs, paths) == [];
    } else {
      var p, rest := paths[0], paths[1..];
      assert Distinct(rest);
      assert forall q :: q in rest ==> q != p;
      if p !in fs {
        CombineLoopContents(fs, rest, out);
      } else {
        var fs1 := fs[out := fs[out] + fs[p]] - {p};
        CombineLoopContents(fs1, rest, out);
        PresentAgree(fs1, fs, rest);
        FlattenCons(fs[p], Present(fs, rest));
      }
    }
  }

  /** The chunk file written by `combine_audio_segments` is exactly the
      concatenation, in list order, of the existing inputs; missing inputs
      are skipped; every consumed input is deleted; other files are kept. */
  lemma CombineContract(fs: FileSystem, paths: seq<string>, out: string)
    requires out !in paths && Distinct(paths)
    ensures var r := CombineAudioSegments(fs, paths, out);
      && out in r && r[out] == Flatten(Present(fs, paths))
      && (forall q :: q in paths ==> q !in r)
      && (forall q :: q !in paths && q != out ==> (q in r <==> q in fs) && (q in r ==> r[q] == fs[q]))
  {
    var fs0 := fs[out := []];
    CombineLoopContents(fs0, paths, out);
    PresentAgree(fs0, fs, paths);
  }

  /** When every input exists, the chunk holds all of them in order. */
  lemma {:induction false} PresentAll(fs: FileSystem, paths: seq<string>)
    requires forall q :: q in paths ==> q in fs
    ensures |Present(fs, paths)| == |paths|
    ensures forall i :: 0 <= i < |paths| ==> Present(fs, paths)[i] == fs[paths[i]]
  {
    if paths != [] {
      assert paths[0] in paths;
      PresentAll(fs, paths[1..]);
    }
  }

  /** Two downloaded segments `a` and `b` make one chunk whose bytes are those
      of `a` followed by those of `b`; both segment files are deleted. */
  lemma TwoSegmentChunk(fs: FileSystem, a: string, b: string, out: string)
    requires a in fs && b in fs && a != b && out != a && out != b
    ensures var r := CombineAudioSegments(fs, [a, b], out);
      r[out] == fs[a] + fs[b] && a !in r && b !in r
  {
    CombineContract(fs, [a, b], out);
    PresentAll(fs, [a, b]);
    var pr := Present(fs, [a, b]);
    assert pr == [fs[a], fs[b]];
    assert pr[..1] == [fs[a]];
    assert pr[..1][..0] == [];
    assert Flatten(pr[..1]) == Flatten([]) + fs[a];
    assert Flatten(pr) == Flatten(pr[..1]) + fs[b];
  }
}
