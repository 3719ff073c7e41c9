/** `process_directory`: runs the processor over the image files of a
    directory and counts the successes.

    The directory listing is a parameter (in `os.listdir` order), and the
    files are seen through the `OpenCv` environment, which stays the same
    for the whole batch. */
module Batch {
  import opened Results
  import opened Text
  import opened BorderProcessing

  /** `str.lower()` on ASCII letters. */
  function LowerAll(s: string): (r: string)
    ensures |r| == |s| && forall k :: 0 <= k < |s| ==> r[k] == Lower(s[k])
  {
    if s == [] then [] else [Lower(s[0])] + LowerAll(s[1..])
  }

  predicate EndsWith(s: string, suffix: string) {
    |suffix| <= |s| && s[|s| - |suffix|..] == suffix
  }

  const ImageSuffixes: seq<string> := [".png", ".jpg", ".jpeg"]

  /** `filename.lower().endswith(('.png', '.jpg', '.jpeg'))`. */
  predicate IsImageName(name: string) {
    exists k :: 0 <= k < |ImageSuffixes| && EndsWith(LowerAll(name), ImageSuffixes[k])
  }

  /** `os.path.join(a, b)` on POSIX: an absolute `b` replaces `a`, and a
      separator is added unless `a` is empty or already ends with one. */
  function Join(a: string, b: string): string {
    if b != [] && b[0] == '/' then b
    else if a == [] || a[|a| - 1] == '/' then a + b
    else a + "/" + b
  }

  const OutputPrefix := "processed_"

  /** The input and output path of one image. */
  datatype Job = Job(input: string, output: string)

  function JobFor(inputDir: string, outputDir: string, name: string): Job {
    Job(Join(inputDir, name), Join(outputDir, OutputPrefix + name))
  }

  /** The jobs for a listing: one per image name, in listing order. */
  function Plan(inputDir: string, outputDir: string, names: seq<string>): (jobs: seq<Job>)
    ensures |jobs| <= |names|
  {
    if names == [] then []
    else
      var last := names[|names| - 1];
      Plan(inputDir, outputDir, names[..|names| - 1])
        + (if IsImageName(last) then [JobFor(inputDir, outputDir, last)] else [])
  }

  /** The image names of the listing, in listing order. */
  function ImageNames(names: seq<string>): (images: seq<string>)
    ensures |images| <= |names|
    ensures forall k :: 0 <= k < |images| ==> IsImageName(images[k]) && images[k] in names
  {
    if names == [] then []
    else
      var last := names[|names| - 1];
      var init := ImageNames(names[..|names| - 1]);
      assert forall k :: 0 <= k < |init| ==> init[k] in names[..|names| - 1];
      init + (if IsImageName(last) then [last] else [])
  }

  /** The plan has one job per image name, in listing order. */
  lemma {:induction false} PlanFollowsImageNames(inputDir: string, outputDir: string, names: seq<string>)
    ensures |Plan(inputDir, outputDir, names)| == |ImageNames(names)|
    ensures forall k :: 0 <= k < |ImageNames(names)| ==>
              Plan(inputDir, outputDir, names)[k] == JobFor(inputDir, outputDir, ImageNames(names)[k])
  {
    if names != [] {
      PlanFollowsImageNames(inputDir, outputDir, names[..|names| - 1]);
    }
  }

  /** Exactly the image names of the listing get a job, and every job is
      named after one of them. */
  lemma {:induction false} PlanCoversImages(inputDir: string, outputDir: string, names: seq<string>)
    ensures forall n :: n in names && IsImageName(n) ==> JobFor(inputDir, outputDir, n) in Plan(inputDir, outputDir, names)
    ensures forall job :: job in Plan(inputDir, outputDir, names) ==>
              exists n :: n in names && IsImageName(n) && job == JobFor(inputDir, outputDir, n)
  {
    if names != [] {
      var init := names[..|names| - 1];
      PlanCoversImages(inputDir, outputDir, init);
      assert names == init + [names[|names| - 1]];
      forall job | job in Plan(inputDir, outputDir, names)
        ensures exists n :: n in names && IsImageName(n) && job == JobFor(inputDir, outputDir, n)
      {
        if job in Plan(inputDir, outputDir, init) {
          var n :| n in init && IsImageName(n) && job == JobFor(inputDir, outputDir, n);
          assert n in names;
        }
      }
    }
  }

  /** Outputs go to the output directory, named `processed_` + the file
      name: the prefix is not a separator, so the join never discards the
      directory. */
  lemma OutputInOutputDir(outputDir: string, name: string)
    ensures var out := JobFor("", outputDir, name).output;
      |outputDir| <= |out| && out[..|outputDir|] == outputDir && EndsWith(out, OutputPrefix + name)
  {
    var b := OutputPrefix + name;
    var out := Join(outputDir, b);
    assert b[0] == 'p';
    if outputDir == [] || outputDir[|outputDir| - 1] == '/' {
      assert out == outputDir + b;
    } else {
      assert out == outputDir + ("/" + b);
    }
    assert out[|out| - |b|..] == b;
  }

  /** The lower-casing makes the suffix test case-insensitive. */
  lemma ImageNameIgnoresCase(name: string)
    ensures IsImageName(name) <==> IsImageName(LowerAll(name))
  {
    assert LowerAll(LowerAll(name)) == LowerAll(name);
  }

  /** Whether `process_image` reports success on a job. */
  function Succeeds(p: Processor, cv: OpenCv): Job -> bool {
    (job: Job) => RunPipeline(p, cv, job.input, job.output).error.None?
  }

  /** The number of jobs on which `ok` holds. */
  function CountWhere(jobs: seq<Job>, ok: Job -> bool): (count: nat)
    ensures count <= |jobs|
  {
    if jobs == [] then 0
    else CountWhere(jobs[..|jobs| - 1], ok) + (if ok(jobs[|jobs| - 1]) then 1 else 0)
  }

  /** The count reaches the number of jobs exactly when every job is
      counted, and it is zero exactly when none is. */
  lemma {:induction false} CountWhereBounds(jobs: seq<Job>, ok: Job -> bool)
    ensures CountWhere(jobs, ok) == |jobs| <==> forall k :: 0 <= k < |jobs| ==> ok(jobs[k])
    ensures CountWhere(jobs, ok) == 0 <==> forall k :: 0 <= k < |jobs| ==> !ok(jobs[k])
  {
    if jobs != [] {
      var init := jobs[..|jobs| - 1];
      CountWhereBounds(init, ok);
      assert forall k :: 0 <= k < |init| ==> init[k] == jobs[k];
    }
  }

  /** The listing grows one name at a time; an image name adds its job. */
  lemma PlanStep(inputDir: string, outputDir: string, names: seq<string>, i: nat)
    requires i < |names|
    ensures Plan(inputDir, outputDir, names[..i + 1]) == Plan(inputDir, outputDir, names[..i])
              + (if IsImageName(names[i]) then [JobFor(inputDir, outputDir, names[i])] else [])
  {
    assert names[..i + 1][..i] == names[..i];
  }

  lemma CountStep(jobs: seq<Job>, job: Job, ok: Job -> bool)
    ensures CountWhere(jobs + [job], ok) == CountWhere(jobs, ok) + (if ok(job) then 1 else 0)
  {
    assert (jobs + [job])[..|jobs|] == jobs;
  }

  /** `process_directory(input_dir, output_dir, target_size)` over the
      listing `names`; returns the count it prints. */
  method ProcessDirectory(cv: OpenCv, inputDir: string, outputDir: string, targetSize: Size, names: seq<string>)
    returns (processedCount: nat)
    ensures processedCount == CountWhere(Plan(inputDir, outputDir, names), Succeeds(Processor(targetSize, false), cv))
    ensures processedCount <= |ImageNames(names)|
  {
    var processor := Processor(targetSize, false);
    ghost var ok := Succeeds(processor, cv);
    processedCount := 0;
    for i := 0 to |names|
      invariant processedCount == CountWhere(Plan(inputDir, outputDir, names[..i]), ok)
    {
      var filename := names[i];
      PlanStep(inputDir, outputDir, names, i);
      ImageNameIgnoresCase(filename);
      if IsImageName(LowerAll(filename)) {
        var inputPath := Join(inputDir, filename);
        var outputPath := Join(outputDir, OutputPrefix + filename);
        var success := ProcessImage(processor, cv, inputPath, outputPath);
        CountStep(Plan(inputDir, outputDir, names[..i]), JobFor(inputDir, outputDir, filename), ok);
        if success {
          processedCount := processedCount + 1;
        }
      } else {
        assert Plan(inputDir, outputDir, names[..i]) + [] == Plan(inputDir, outputDir, names[..i]);
      }
    }
    assert names[..|names|] == names;
    PlanFollowsImageNames(inputDir, outputDir, names);
  }
}
