/**
 * The token-cleaning and feature pipeline of `TweetSentimentAnalyzer`.
 *
 * The NLTK collaborators (part-of-speech tagger, WordNet lemmatizer, English
 * stop-word list, word tokenizer, Naive Bayes trainer) and the URL
 * substitution are given to the analyzer as values it does not look into.
 */
module Sentiment {
  import opened Wrappers
  import opened Text

  /** A part-of-speech tag; the tagger never yields an empty one. */
  type Tag = s: string | |s| > 0 witness "NN"

  /** `pos_tag`, reduced to the tags it assigns: one tag per input token. */
  type Tagger = f: seq<string> -> seq<Tag> | forall ts :: |f(ts)| == |ts|
    witness (ts: seq<string>) => seq<Tag>(|ts|, _ => "NN")

  /** `WordNetLemmatizer.lemmatize(word, pos)` */
  type Lemmatizer = (string, char) -> string

  /** A presence-only bag of words: each distinct token maps to `True`. */
  type FeatureSet = map<string, bool>

  /** A labelled training example `(features, label)`. */
  type Example = (FeatureSet, string)

  /** A trained classifier's `classify` operation. */
  type Classifier = FeatureSet -> string

  /** `f(s)` holds the examples of `s`, each as often as `s` does, in some order. */
  ghost predicate Rearranges(f: seq<Example> -> seq<Example>, s: seq<Example>) {
    multiset(f(s)) == multiset(s)
  }

  /** `random.shuffle`, seen only as some rearrangement of its argument. */
  type Shuffler = f: seq<Example> -> seq<Example> | forall s :: Rearranges(f, s)
    witness (s: seq<Example>) => s

  const POSITIVE: string := "positive"
  const NEGATIVE: string := "negative"

  /** Examples before this index of the shuffled dataset train the classifier. */
  const TRAIN_SIZE: nat := 8000

  /** `pos_dict`: the first letter of a tag to a WordNet part of speech. */
  const POS_DICT: map<char, char> := map['V' := 'v', 'N' := 'n']

  /** `pos_dict.get(tag[0], 'a')`: verbs, nouns, and adjective for everything else. */
  function WordNetPos(tag: Tag): (pos: char)
    ensures pos == 'v' <==> tag[0] == 'V'
    ensures pos == 'n' <==> tag[0] == 'N'
    ensures pos == 'a' <==> tag[0] != 'V' && tag[0] != 'N'
  {
    if tag[0] in POS_DICT then POS_DICT[tag[0]] else 'a'
  }

  /** `pos_tag(tokens)`: each token paired with its tag, in order. */
  function PosTag(tagger: Tagger, tokens: seq<string>): (tagged: seq<(string, Tag)>)
    ensures |tagged| == |tokens|
    ensures forall i :: 0 <= i < |tagged| ==> tagged[i].0 == tokens[i]
  {
    var tags := tagger(tokens);
    seq(|tokens|, i requires 0 <= i < |tokens| => (tokens[i], tags[i]))
  }

  function Min(a: nat, b: nat): nat {
    if a <= b then a else b
  }

  /**
   * `dict([token, True] for token in tokens)`: the pairs are entered in
   * order, a repeated token overwriting its earlier entry.
   */
  function FeatureSetOf(tokens: seq<string>): (features: FeatureSet)
    ensures forall t :: t in features <==> t in tokens
    ensures forall t :: t in features ==> features[t]
  {
    if |tokens| == 0 then map[]
    else FeatureSetOf(tokens[..|tokens| - 1])[tokens[|tokens| - 1] := true]
  }

  /** The feature set depends only on which tokens occur, not how often or where. */
  lemma FeatureSetIgnoresRepetition(a: seq<string>, b: seq<string>)
    requires forall t :: t in a <==> t in b
    ensures FeatureSetOf(a) == FeatureSetOf(b)
  {
    var fa, fb := FeatureSetOf(a), FeatureSetOf(b);
    assert fa.Keys == fb.Keys;
    assert forall t :: t in fa ==> fa[t] == fb[t];
  }

  /** The cleaned tweet `good good company` has the two features `good` and `company`. */
  lemma FeatureSetOfRepeatedToken()
    ensures FeatureSetOf(["good", "good", "company"]) == map["good" := true, "company" := true]
  {
    var fs := FeatureSetOf(["good", "good", "company"]);
    assert fs.Keys == {"good", "company"};
  }

  /** `format_tweets_for_model`: one feature set per cleaned tweet. */
  function FormatTweetsForModel(cleanedTokensList: seq<seq<string>>): (formatted: seq<FeatureSet>)
    ensures |formatted| == |cleanedTokensList|
    ensures forall i :: 0 <= i < |formatted| ==> formatted[i] == FeatureSetOf(cleanedTokensList[i])
  {
    seq(|cleanedTokensList|, i requires 0 <= i < |cleanedTokensList| => FeatureSetOf(cleanedTokensList[i]))
  }

  /** `[(token, label) for token in featureSets]` */
  function Labelled(featureSets: seq<FeatureSet>, labelName: string): (examples: seq<Example>)
    ensures |examples| == |featureSets|
    ensures forall i :: 0 <= i < |examples| ==> examples[i] == (featureSets[i], labelName)
  {
    seq(|featureSets|, i requires 0 <= i < |featureSets| => (featureSets[i], labelName))
  }

  /** `positive_dataset + negative_dataset`, built from the cleaned tweets. */
  function Dataset(positiveCleaned: seq<seq<string>>, negativeCleaned: seq<seq<string>>): (dataset: seq<Example>)
    ensures |dataset| == |positiveCleaned| + |negativeCleaned|
    ensures forall i :: 0 <= i < |positiveCleaned| ==>
              dataset[i] == (FeatureSetOf(positiveCleaned[i]), POSITIVE)
    ensures forall i :: 0 <= i < |negativeCleaned| ==>
              dataset[|positiveCleaned| + i] == (FeatureSetOf(negativeCleaned[i]), NEGATIVE)
  {
    Labelled(FormatTweetsForModel(positiveCleaned), POSITIVE)
      + Labelled(FormatTweetsForModel(negativeCleaned), NEGATIVE)
  }

  /** `(dataset[:8000], dataset[8000:])` */
  function Split(dataset: seq<Example>): (parts: (seq<Example>, seq<Example>))
    ensures parts.0 + parts.1 == dataset
    ensures |parts.0| == Min(TRAIN_SIZE, |dataset|)
  {
    var cut := Min(TRAIN_SIZE, |dataset|);
    (dataset[..cut], dataset[cut..])
  }

  /**
   * Shuffling and splitting loses and invents no example: the two partitions
   * together hold the dataset's examples, each as often as the dataset does.
   */
  lemma SplitPartitionsDataset(positiveCleaned: seq<seq<string>>, negativeCleaned: seq<seq<string>>, shuffle: Shuffler)
    ensures var dataset := Dataset(positiveCleaned, negativeCleaned);
            var parts := Split(shuffle(dataset));
            && |parts.0| + |parts.1| == |positiveCleaned| + |negativeCleaned|
            && |parts.0| == Min(TRAIN_SIZE, |positiveCleaned| + |negativeCleaned|)
            && multiset(parts.0) + multiset(parts.1) == multiset(dataset)
  {
    var dataset := Dataset(positiveCleaned, negativeCleaned);
    var shuffled := shuffle(dataset);
    assert Rearranges(shuffle, dataset);
    assert |shuffled| == |multiset(shuffled)| == |multiset(dataset)| == |dataset|;
    var parts := Split(shuffled);
    assert multiset(parts.0 + parts.1) == multiset(parts.0) + multiset(parts.1);
  }

  /** The result of `determine_sentiment`. */
  datatype Verdict = Label(labelName: string) | NotTrained

  class TweetSentimentAnalyzer {
    /** `self.stop_words`: the English stop words. */
    const stopWords: set<string>
    /** `self.lemmatizer` */
    const lemmatizer: Lemmatizer
    /** `pos_tag` */
    const posTag: Tagger
    /** The hyperlink substitution `re.sub(<url pattern>, '', token)`. */
    const stripUrls: string -> string
    /** `word_tokenize` */
    const wordTokenize: string -> seq<string>
    /** `NaiveBayesClassifier.train` */
    const trainNaiveBayes: seq<Example> -> Classifier

    var trainData: seq<Example>
    var testData: seq<Example>
    /** `self.classifier`, absent until the classifier has been trained. */
    var classifier: Option<Classifier>

    constructor (stopWords: set<string>, lemmatizer: Lemmatizer, posTag: Tagger,
                 stripUrls: string -> string, wordTokenize: string -> seq<string>,
                 trainNaiveBayes: seq<Example> -> Classifier)
      ensures this.stopWords == stopWords && this.posTag == posTag
      ensures this.lemmatizer == lemmatizer && this.stripUrls == stripUrls
      ensures this.wordTokenize == wordTokenize && this.trainNaiveBayes == trainNaiveBayes
      ensures trainData == [] && testData == [] && classifier == None
    {
      this.stopWords := stopWords;
      this.lemmatizer := lemmatizer;
      this.posTag := posTag;
      this.stripUrls := stripUrls;
      this.wordTokenize := wordTokenize;
      this.trainNaiveBayes := trainNaiveBayes;
      trainData, testData, classifier := [], [], None;
    }

    /** The lemma of one tagged token, after hyperlinks and mentions are removed. */
    function LemmaOf(token: string, tag: Tag): string {
      lemmatizer(StripMentions(stripUrls(token)), WordNetPos(tag))
    }

    /** The length and stop-word test a lemma must pass to be kept. */
    predicate Keeps(tagged: (string, Tag)) {
      var word := LemmaOf(tagged.0, tagged.1);
      |word| > 1 && Lower(word) !in stopWords
    }

    /** What a kept token contributes: its lemma, lower-cased. */
    function Normalised(tagged: (string, Tag)): string {
      Lower(LemmaOf(tagged.0, tagged.1))
    }

    /** The cleaner's output for a sequence of tagged tokens, one token at a time. */
    function Cleaned(tagged: seq<(string, Tag)>): seq<string> {
      if |tagged| == 0 then []
      else
        var last := tagged[|tagged| - 1];
        Cleaned(tagged[..|tagged| - 1]) + (if Keeps(last) then [Normalised(last)] else [])
    }

    /** The positions of the tagged tokens that survive the filter. */
    function KeptIndices(tagged: seq<(string, Tag)>): seq<nat> {
      if |tagged| == 0 then []
      else
        var n := |tagged| - 1;
        KeptIndices(tagged[..n]) + (if Keeps(tagged[n]) then [n] else [])
    }

    /**
     * The kept positions increase strictly, and a position is among them
     * exactly when its token passes the length and stop-word test.
     */
    lemma {:induction false} KeptIndicesAreTheKeptPositions(tagged: seq<(string, Tag)>)
      ensures forall k :: 0 <= k < |KeptIndices(tagged)| ==> KeptIndices(tagged)[k] < |tagged|
      ensures forall k, l :: 0 <= k < l < |KeptIndices(tagged)| ==> KeptIndices(tagged)[k] < KeptIndices(tagged)[l]
      ensures forall j :: 0 <= j < |tagged| ==> (j in KeptIndices(tagged) <==> Keeps(tagged[j]))
    {
      if |tagged| > 0 {
        var n := |tagged| - 1;
        KeptIndicesAreTheKeptPositions(tagged[..n]);
        assert forall j :: 0 <= j < n ==> tagged[..n][j] == tagged[j];
      }
    }

    /**
     * The cleaned tokens are an order-preserving selection of the lower-cased
     * lemmas: the k-th output is the lower-cased lemma at the k-th kept position.
     */
    lemma {:induction false} CleanedIsSelection(tagged: seq<(string, Tag)>)
      ensures |KeptIndices(tagged)| == |Cleaned(tagged)|
      ensures forall k :: 0 <= k < |Cleaned(tagged)| ==>
                KeptIndices(tagged)[k] < |tagged| && Cleaned(tagged)[k] == Normalised(tagged[KeptIndices(tagged)[k]])
    {
      if |tagged| > 0 {
        var n := |tagged| - 1;
        CleanedIsSelection(tagged[..n]);
        var kept, cleaned := KeptIndices(tagged), Cleaned(tagged);
        assert kept[..|KeptIndices(tagged[..n])|] == KeptIndices(tagged[..n]);
        assert cleaned[..|Cleaned(tagged[..n])|] == Cleaned(tagged[..n]);
      }
    }

    /**
     * Every cleaned token is a lower-cased lemma longer than one character,
     * is not a stop word, is already lower-case, and there are no more of
     * them than tagged tokens.
     */
    lemma {:induction false} CleanedTokensWellFormed(tagged: seq<(string, Tag)>)
      ensures |Cleaned(tagged)| <= |tagged|
      ensures forall e :: e in Cleaned(tagged) ==>
                |e| > 1 && e !in stopWords && IsLower(e) && Lower(e) == e
    {
      if |tagged| > 0 {
        CleanedTokensWellFormed(tagged[..|tagged| - 1]);
      }
      forall e | e in Cleaned(tagged) ensures Lower(e) == e {
        LowerFixesExactlyLower(e);
      }
    }

    /**
     * The tweet `the cats`, tagged `DT NNS`: "the" is a stop word and the noun
     * "cats" is lemmatized as a noun to "cat", so the cleaned tweet is `cat`.
     */
    lemma CleansStopWordAndPlural()
      requires "the" in stopWords && "cat" !in stopWords
      requires stripUrls("the") == "the" && stripUrls("cats") == "cats"
      requires lemmatizer("the", 'a') == "the" && lemmatizer("cats", 'n') == "cat"
      ensures Cleaned([("the", "DT"), ("cats", "NNS")]) == ["cat"]
    {
      var tagged: seq<(string, Tag)> := [("the", "DT"), ("cats", "NNS")];
      assert StripMentions("the") == "the" by {
        StripMentionsKeepsMentionFree("the");
      }
      assert StripMentions("cats") == "cats" by {
        StripMentionsKeepsMentionFree("cats");
      }
      assert Lower("the") == "the" && Lower("cat") == "cat";
      assert LemmaOf("the", "DT") == "the" && LemmaOf("cats", "NNS") == "cat";
      assert tagged[..1] == [("the", "DT")] && tagged[..1][..0] == [];
      assert Cleaned(tagged[..1]) == [];
      assert Keeps(tagged[1]) && Normalised(tagged[1]) == "cat";
    }

    /** The lemmatizer only ever sees tokens with no mention left in them. */
    lemma LemmatizerInputHasNoMention(token: string)
      ensures NoMention(StripMentions(stripUrls(token)))
    {
      StripMentionsLeavesNoMention(stripUrls(token));
    }

    /** `clean_tokens_and_lemmetize(tweet_tokens)` as a function. */
    function CleanedTokens(tweetTokens: seq<string>): seq<string> {
      Cleaned(PosTag(posTag, tweetTokens))
    }

    /** Cleaning never yields more tokens than the tweet had. */
    lemma CleanedTokensBounded(tweetTokens: seq<string>)
      ensures |CleanedTokens(tweetTokens)| <= |tweetTokens|
    {
      CleanedTokensWellFormed(PosTag(posTag, tweetTokens));
    }

    function CleanedTweets(tweets: seq<seq<string>>): (cleaned: seq<seq<string>>)
      ensures |cleaned| == |tweets|
      ensures forall i :: 0 <= i < |tweets| ==> cleaned[i] == CleanedTokens(tweets[i])
    {
      seq(|tweets|, i requires 0 <= i < |tweets| => CleanedTokens(tweets[i]))
    }

    /** `clean_tokens_and_lemmetize`: removes hyperlinks and mentions, lemmatizes, filters. */
    method CleanTokensAndLemmatize(tweetTokens: seq<string>) returns (cleanedTokens: seq<string>)
      ensures cleanedTokens == CleanedTokens(tweetTokens)
    {
      var tagged := PosTag(posTag, tweetTokens);
      cleanedTokens := [];
      var i := 0;
      while i < |tagged|
        invariant 0 <= i <= |tagged|
        invariant cleanedTokens == Cleaned(tagged[..i])
      {
        var token, tag := tagged[i].0, tagged[i].1;
        token := stripUrls(token);
        token := StripMentions(token);
        var pos := WordNetPos(tag);
        token := lemmatizer(token, pos);
        assert token == LemmaOf(tagged[i].0, tagged[i].1);
        if |token| > 1 && Lower(token) !in stopWords {
          cleanedTokens := cleanedTokens + [Lower(token)];
        }
        assert tagged[..i + 1][..i] == tagged[..i];
        i := i + 1;
      }
      assert tagged[..i] == tagged;
    }

    /** The loops of `train_naive_Bayes_classificator` that clean every sample tweet. */
    method CleanEachTweet(tweets: seq<seq<string>>) returns (cleanedTokensList: seq<seq<string>>)
      ensures cleanedTokensList == CleanedTweets(tweets)
    {
      cleanedTokensList := [];
      for i := 0 to |tweets|
        invariant |cleanedTokensList| == i
        invariant forall k :: 0 <= k < i ==> cleanedTokensList[k] == CleanedTokens(tweets[k])
      {
        var cleaned := CleanTokensAndLemmatize(tweets[i]);
        cleanedTokensList := cleanedTokensList + [cleaned];
      }
      assert forall k :: 0 <= k < |tweets| ==> cleanedTokensList[k] == CleanedTweets(tweets)[k];
    }

    /**
     * `train_naive_Bayes_classificator` without the pickle file: cleans both
     * sample sets, labels and concatenates them, shuffles, keeps the first
     * 8000 examples for training and the rest for testing.
     */
    method TrainNaiveBayesClassificator(positiveTweetTokens: seq<seq<string>>,
                                        negativeTweetTokens: seq<seq<string>>,
                                        shuffle: Shuffler)
      modifies this
      ensures (trainData, testData)
              == Split(shuffle(Dataset(CleanedTweets(positiveTweetTokens), CleanedTweets(negativeTweetTokens))))
      ensures classifier == Some(trainNaiveBayes(trainData))
    {
      var positiveCleanedTokensList := CleanEachTweet(positiveTweetTokens);
      var negativeCleanedTokensList := CleanEachTweet(negativeTweetTokens);

      var negativeDataset := Labelled(FormatTweetsForModel(negativeCleanedTokensList), NEGATIVE);
      var positiveDataset := Labelled(FormatTweetsForModel(positiveCleanedTokensList), POSITIVE);
      var dataset := positiveDataset + negativeDataset;
      dataset := shuffle(dataset);

      var parts := Split(dataset);
      trainData := parts.0;
      testData := parts.1;
      classifier := Some(trainNaiveBayes(trainData));
    }

    /** The feature set `determine_sentiment` hands to the classifier. */
    function InferenceFeatures(x: string): FeatureSet {
      FeatureSetOf(CleanedTokens(wordTokenize(x)))
    }

    /**
     * Inference builds features of the same form as training: exactly the
     * distinct cleaned tokens, each mapped to `True`, as a training example
     * built from the same cleaned tokens would have.
     */
    lemma InferenceMatchesTraining(x: string, labelName: string)
      ensures var tokens := CleanedTokens(wordTokenize(x));
              && (forall t :: t in InferenceFeatures(x) <==> t in tokens)
              && (forall t :: t in InferenceFeatures(x) ==> InferenceFeatures(x)[t])
              && Labelled(FormatTweetsForModel([tokens]), labelName) == [(InferenceFeatures(x), labelName)]
    {
    }

    /** `determine_sentiment(x)`; an untrained analyzer has no classifier to ask. */
    method DetermineSentiment(x: string) returns (sentiment: Verdict)
      ensures classifier == None ==> sentiment == NotTrained
      ensures classifier.Some? ==> sentiment == Label(classifier.value(InferenceFeatures(x)))
    {
      var customTokens := CleanTokensAndLemmatize(wordTokenize(x));
      var features := FeatureSetOf(customTokens);
      match classifier
      case None => sentiment := NotTrained;
      case Some(classify) => sentiment := Label(classify(features));
    }
  }
}
