/** The file system, as the pipeline sees it: a store of named files whose
    contents are already tokenised. Raw tab-separated inputs keep their header
    and their fields; the `kg_final` and `ratings_final` text files and their
    `.npy` caches hold three-column integer matrices; `dataset_metadata.txt`
    holds lines of text. */
module Files {
  import opened Common

  class Store {
    var tables: map<Path, Table>
    var arrays: map<Path, seq<Row>>
    var texts: map<Path, seq<string>>

    constructor (tables: map<Path, Table>, arrays: map<Path, seq<Row>>, texts: map<Path, seq<string>>)
      ensures this.tables == tables && this.arrays == arrays && this.texts == texts
    {
      this.tables, this.arrays, this.texts := tables, arrays, texts;
    }
  }
}
