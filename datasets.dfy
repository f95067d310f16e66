/** Importing a Hugging Face dataset (backend/services/datasets.py,
    `import_hf_dataset`): the dataset record first, then the streamed
    examples, at most `sample_limit` of them, inserted in batches of
    twenty. The stream is given as the sequence of its examples, each a
    dict. */
module Datasets {
  import opened Wrappers
  import opened Json
  import opened Tables

  /** The size at which the buffer is flushed. */
  const BatchSize: nat := 20

  /** `example.get("answer") or example.get("output") or example.get("label")`. */
  function ExpectedOutput(example: seq<(string, Json)>): (r: Json)
    ensures Truthy(Get(example, "answer", JNull)) ==> r == Get(example, "answer", JNull)
    ensures !Truthy(Get(example, "answer", JNull)) && Truthy(Get(example, "output", JNull)) ==>
              r == Get(example, "output", JNull)
    ensures !Truthy(Get(example, "answer", JNull)) && !Truthy(Get(example, "output", JNull)) ==>
              r == Get(example, "label", JNull)
    ensures Truthy(r) <==>
              Truthy(Get(example, "answer", JNull)) || Truthy(Get(example, "output", JNull))
              || Truthy(Get(example, "label", JNull))
  {
    var answer := Get(example, "answer", JNull);
    if Truthy(answer) then answer
    else
      var output := Get(example, "output", JNull);
      if Truthy(output) then output else Get(example, "label", JNull)
  }

  /** The sample row of one example: the whole example is the input. */
  function SampleOf(datasetId: nat, example: seq<(string, Json)>): (s: SampleRow)
    ensures s.datasetId == datasetId && s.input == JObj(example)
  {
    SampleRow(datasetId, JObj(example), ExpectedOutput(example))
  }

  function Mapped(datasetId: nat, examples: seq<seq<(string, Json)>>): (r: seq<SampleRow>)
    ensures |r| == |examples|
    ensures forall k :: 0 <= k < |r| ==> r[k] == SampleOf(datasetId, examples[k])
  {
    seq(|examples|, k requires 0 <= k < |examples| => SampleOf(datasetId, examples[k]))
  }

  /** The examples read before the loop breaks: `i >= sample_limit` stops
      it at index `sample_limit`, and a limit of zero or less reads none. */
  function Taken(streamLength: nat, sampleLimit: int): (n: nat)
    ensures n <= streamLength
    ensures sampleLimit <= 0 ==> n == 0
    ensures sampleLimit > 0 ==> n == if sampleLimit < streamLength then sampleLimit else streamLength
  {
    if sampleLimit <= 0 then 0 else if sampleLimit < streamLength then sampleLimit else streamLength
  }

  /** The rows of the insert calls, in call order. */
  function Concat(batches: seq<seq<SampleRow>>): seq<SampleRow> {
    if batches == [] then [] else Concat(batches[..|batches| - 1]) + batches[|batches| - 1]
  }

  /** The shape of the insert calls: none is empty, none exceeds twenty
      rows, and all but the last hold exactly twenty. */
  predicate WellBatched(batches: seq<seq<SampleRow>>) {
    && (forall k :: 0 <= k < |batches| ==> 1 <= |batches[k]| <= BatchSize)
    && (forall k :: 0 <= k < |batches| - 1 ==> |batches[k]| == BatchSize)
  }

  /** The dataset record `import_hf_dataset` creates. */
  function ImportedDataset(repoId: string, configName: Option<string>, split: string): DatasetRow {
    DatasetRow(repoId + " (" + split + ")", "Imported from Hugging Face: " + repoId, "huggingface",
               repoId, configName, split)
  }

  /** `import_hf_dataset`. `batches` are the insert calls on
      `dataset_samples`, in order; they all follow the creation of the
      dataset record. */
  method ImportHfDataset(db: Database, repoId: string, configName: Option<string>, split: string,
                         sampleLimit: int, stream: seq<seq<(string, Json)>>)
    returns (id: nat, batches: seq<seq<SampleRow>>)
    requires db.Valid()
    modifies db`datasets, db`samples
    ensures db.Valid()
    ensures id == |old(db.datasets)|
    ensures db.datasets == old(db.datasets) + [ImportedDataset(repoId, configName, split)]
    ensures db.samples == old(db.samples) + Concat(batches)
    ensures Concat(batches) == Mapped(id, stream[..Taken(|stream|, sampleLimit)])
    ensures WellBatched(batches)
  {
    id := |db.datasets|;
    db.datasets := db.datasets + [ImportedDataset(repoId, configName, split)];
    batches := InsertSamples(db, id, sampleLimit, stream);
    var inserted := Mapped(id, stream[..Taken(|stream|, sampleLimit)]);
    forall k | 0 <= k < |db.samples|
      ensures db.samples[k].datasetId < |db.datasets|
    {
      if k >= |old(db.samples)| {
        assert db.samples[k] == inserted[k - |old(db.samples)|];
      }
    }
  }

  /** The streaming loop: the buffer is flushed whenever it holds twenty
      rows, and once more at the end if it is not empty. */
  method InsertSamples(db: Database, id: nat, sampleLimit: int, stream: seq<seq<(string, Json)>>)
    returns (batches: seq<seq<SampleRow>>)
    modifies db`samples
    ensures db.samples == old(db.samples) + Concat(batches)
    ensures Concat(batches) == Mapped(id, stream[..Taken(|stream|, sampleLimit)])
    ensures WellBatched(batches)
  {
    var buffer: seq<SampleRow> := [];
    batches := [];
    var i := 0;
    while i < |stream|
      invariant 0 <= i <= Taken(|stream|, sampleLimit)
      invariant Concat(batches) + buffer == Mapped(id, stream[..i])
      invariant |buffer| < BatchSize
      invariant FullBatches(batches)
      invariant db.samples == old(db.samples) + Concat(batches)
    {
      if i >= sampleLimit {
        break;
      }
      MappedSnoc(id, stream, i);
      buffer, batches := AddSample(db, old(db.samples), SampleOf(id, stream[i]), buffer, batches);
      i := i + 1;
    }
    assert i == Taken(|stream|, sampleLimit);
    if buffer != [] {
      ConcatSnoc(batches, buffer);
      db.samples := db.samples + buffer;
      batches := batches + [buffer];
    }
  }

  /** One step of the loop: the row joins the buffer, and a full buffer is
      inserted as a batch. */
  method AddSample(db: Database, ghost before: seq<SampleRow>, row: SampleRow,
                   buffer: seq<SampleRow>, batches: seq<seq<SampleRow>>)
    returns (buffer': seq<SampleRow>, batches': seq<seq<SampleRow>>)
    requires |buffer| < BatchSize && FullBatches(batches)
    requires db.samples == before + Concat(batches)
    modifies db`samples
    ensures Concat(batches') + buffer' == Concat(batches) + buffer + [row]
    ensures |buffer'| < BatchSize && FullBatches(batches')
    ensures db.samples == before + Concat(batches')
  {
    buffer' := buffer + [row];
    batches' := batches;
    if |buffer'| >= BatchSize {
      ConcatSnoc(batches, buffer');
      FullBatchesSnoc(batches, buffer');
      db.samples := db.samples + buffer';
      batches' := batches + [buffer'];
      buffer' := [];
    }
  }

  /** Every batch so far holds exactly twenty rows. */
  predicate FullBatches(batches: seq<seq<SampleRow>>) {
    forall k :: 0 <= k < |batches| ==> |batches[k]| == BatchSize
  }

  lemma FullBatchesSnoc(batches: seq<seq<SampleRow>>, batch: seq<SampleRow>)
    requires FullBatches(batches) && |batch| == BatchSize
    ensures FullBatches(batches + [batch])
  {
    assert forall k :: 0 <= k < |batches| ==> (batches + [batch])[k] == batches[k];
  }

  /** Mapping one more example appends its sample. */
  lemma MappedSnoc(id: nat, stream: seq<seq<(string, Json)>>, i: nat)
    requires i < |stream|
    ensures Mapped(id, stream[..i + 1]) == Mapped(id, stream[..i]) + [SampleOf(id, stream[i])]
  {
    assert stream[..i + 1][..i] == stream[..i];
  }

  lemma ConcatSnoc(batches: seq<seq<SampleRow>>, batch: seq<SampleRow>)
    ensures Concat(batches + [batch]) == Concat(batches) + batch
  {
    assert (batches + [batch])[..|batches|] == batches;
  }
}
