# Tweet sentiment: token cleaning, features, dataset split and search parameters

A Dafny model of the two self-contained pieces of logic in the tweet-sentiment tool.

1. `TweetSentimentAnalyzer` (sentiment_analyzer.py) turns tagged tweet tokens into cleaned tokens. It strips hyperlinks and
   `@`-mentions, maps the tag's first letter to a WordNet part of speech, lemmatizes, and drops lemmas of length at most
   one and stop words, lower-casing what remains. It turns cleaned tokens into presence-only feature dictionaries
   (every distinct token maps to `True`). It builds the labelled dataset (positive examples, then negative ones),
   shuffles it and cuts it at index 8000 into training and test data. At inference it builds the same kind of feature
   dictionary for the classifier.
2. `ArgumentParser` (argument_parser.py) builds the search-parameter dictionary. Empty command-line values are dropped.
   Values from the JSON parameters file override command-line values key by key. `filename` is removed. Missing dates
   are then filled by two ordered rules.

Files:

- `wrappers.dfy`: `Option`.
- `text.dfy` (module `Text`): ASCII lower-casing; the mention substitution `re.sub('(@[A-Za-z0-9_]+)', '', token)`
  written out as a left-to-right, greedy scan, with proofs that it leaves no mention behind and is a fixed point exactly
  on mention-free strings.
- `sentiment_analyzer.dfy` (module `Sentiment`): the class `TweetSentimentAnalyzer`. Its constant fields
  are the NLTK collaborators (stop words, lemmatizer, `pos_tag`, `word_tokenize` and Naive Bayes training) and the
  hyperlink `re.sub`. The model does not look inside any of them. The two cleaning loops are methods proved against
  the pure functions `Cleaned` and `CleanedTokens`; training and inference call `Dataset`, `Split` and
  `FeatureSetOf` directly. The lemmas state what those functions promise.
- `argument_parser.dfy` (module `Arguments`): the class `ArgumentParser` with its field `searchParameters`, a map that
  its methods update in place. Each method is proved against a pure function (`NonEmpty`, `Merged`, `WithDates`,
  `ParsedParameters`); the lemmas state what those functions promise.

Inputs that stand for I/O, randomness or foreign code:

- `TrainNaiveBayesClassificator` takes the token lists of NLTK's two sample sets (`twitter_samples.tokenized`).
- It also takes a `Shuffler`: any function that rearranges a sequence of examples, for `random.shuffle`.
- `ParseClArguments` takes the map `vars(parser.parse_args())`.
- Reading the parameters file is a `JsonLoader`. This function maps the `filename` value to the file's parsed JSON
  object. It returns `None` when `open`, `json.load` or `.items()` would raise.
- `FillInMissingDate` takes `today`, the text of `datetime.today().strftime('%Y-%m-%d')`.

Where the code and its docstrings differ, the model follows the code. The docstring of `fill_in_missing_date`
(argument_parser.py:38-39) says the start date is filled whenever it is missing. The code fills it only when the end
date is missing too (line 44). Its first rule also runs before its second: given neither date, one call adds only
`date_from`. A second call would then add `date_till`. `WithDatesNotIdempotent` proves this.

## Model

| member | source | states |
|---|---|---|
| `Text.Lower` | sentiment_analyzer.py:51-52 | `token.lower()` keeps the length and yields a string with no upper-case letter |
| `Text.LowerFixesExactlyLower` | sentiment_analyzer.py:52 | lower-casing leaves a string unchanged exactly when it is already lower-case |
| `Text.LowerIdempotent` | sentiment_analyzer.py:51-52 | lower-casing twice equals lower-casing once, so the stop-word test and the appended token agree |
| `Text.WordRun` | sentiment_analyzer.py:45 | the greedy `[A-Za-z0-9_]+` run: every character in it is a word character and the next one is not |
| `Text.StripMentions` | sentiment_analyzer.py:45 | the mention substitution never lengthens the token |
| `Text.StripMentionsLeavesNoMention` | sentiment_analyzer.py:45 | after the substitution no `@` is directly followed by a letter, digit or underscore |
| `Text.StripMentionsKeepsMentionFree` | sentiment_analyzer.py:45 | a token without a mention passes through unchanged |
| `Text.StripMentionsFixedPoint` | sentiment_analyzer.py:45 | the substitution leaves a token unchanged if and only if it holds no mention |
| `Text.StripMentionsIdempotent` | sentiment_analyzer.py:45 | substituting twice equals substituting once |
| `Text.StripMentionsExample` | sentiment_analyzer.py:45 | `a @b_1!@` becomes `a !@`: the whole word run after `@` goes, a trailing lone `@` stays |
| `Sentiment.WordNetPos` | sentiment_analyzer.py:39-47 | `pos_dict.get(tag[0], 'a')`: `'v'` iff the tag starts with `V`, `'n'` iff with `N`, `'a'` for every other tag |
| `Sentiment.PosTag` | sentiment_analyzer.py:40 | `pos_tag` pairs every token, in order, with a tag: one pair per token |
| `Sentiment.FeatureSetOf` | sentiment_analyzer.py:60 | the dictionary built from `[token, True]` pairs has exactly the tokens of the list as keys, every value `True` |
| `Sentiment.FeatureSetIgnoresRepetition` | sentiment_analyzer.py:60 | two token lists with the same distinct tokens give the same dictionary, however often or wherever tokens repeat |
| `Sentiment.FeatureSetOfRepeatedToken` | sentiment_analyzer.py:60 | `good good company` gives `{good: True, company: True}` |
| `Sentiment.FormatTweetsForModel` | sentiment_analyzer.py:56-60 | one feature dictionary per cleaned tweet, in order |
| `Sentiment.Labelled` | sentiment_analyzer.py:92-95 | every feature dictionary paired with the given label, in order |
| `Sentiment.Dataset` | sentiment_analyzer.py:92-97 | the dataset has length pos + neg; positions below pos hold the positive tweets' features labelled `"positive"`, the rest the negative ones labelled `"negative"` |
| `Sentiment.Split` | sentiment_analyzer.py:101-102 | training data followed by test data is the shuffled dataset, and the training data has min(8000, length) examples |
| `Sentiment.SplitPartitionsDataset` | sentiment_analyzer.py:97-102 | after any shuffle the partitions' sizes add up to pos + neg, training has min(8000, pos + neg) examples, and together they hold each example of the dataset exactly as often as the dataset does |
| `Sentiment.TweetSentimentAnalyzer.constructor` | sentiment_analyzer.py:27-31 | the analyzer keeps its stop words and lemmatizer and starts with no classifier |
| `Sentiment.TweetSentimentAnalyzer.CleanTokensAndLemmatize` | sentiment_analyzer.py:33-54 | the loop returns exactly `Cleaned` of the tagged tokens: for each token in order, the lower-cased lemma of the URL- and mention-stripped token when it passes the length and stop-word test |
| `Sentiment.TweetSentimentAnalyzer.KeptIndicesAreTheKeptPositions` | sentiment_analyzer.py:40-53 | the kept positions lie in the input, increase strictly, and a position is kept if and only if its lemma is longer than one character and its lower-case form is not a stop word |
| `Sentiment.TweetSentimentAnalyzer.CleanedIsSelection` | sentiment_analyzer.py:37-54 | the output is an order-preserving selection: as many tokens as kept positions, the k-th being the lower-cased lemma at the k-th kept position |
| `Sentiment.TweetSentimentAnalyzer.CleanedTokensWellFormed` | sentiment_analyzer.py:51-52 | no more output tokens than input tokens; each is longer than one character, not a stop word and already lower-case |
| `Sentiment.TweetSentimentAnalyzer.CleanedTokensBounded` | sentiment_analyzer.py:37-54 | a tweet's cleaned tokens are at most as many as its tokens |
| `Sentiment.TweetSentimentAnalyzer.CleansStopWordAndPlural` | sentiment_analyzer.py:40-52 | `the/DT cats/NNS` with `the` a stop word and `cats` lemmatized as a noun cleans to `cat` |
| `Sentiment.TweetSentimentAnalyzer.LemmatizerInputHasNoMention` | sentiment_analyzer.py:45-49 | the token handed to the lemmatizer holds no mention |
| `Sentiment.TweetSentimentAnalyzer.CleanEachTweet` | sentiment_analyzer.py:82-90 | the cleaning loops yield, in order, the cleaned tokens of every sample tweet |
| `Sentiment.TweetSentimentAnalyzer.TrainNaiveBayesClassificator` | sentiment_analyzer.py:73-104 | training and test data are the split of the shuffled dataset of the cleaned positive and negative tweets; the classifier is trained on the training data |
| `Sentiment.TweetSentimentAnalyzer.InferenceMatchesTraining` | sentiment_analyzer.py:113-116 | inference features have exactly the distinct cleaned tokens as keys, all `True`, and equal the features a training example of the same tokens gets |
| `Sentiment.TweetSentimentAnalyzer.DetermineSentiment` | sentiment_analyzer.py:113-116 | with a classifier, the answer is its label for the tweet's inference features; without one, `NotTrained` |
| `Arguments.NonEmpty` | argument_parser.py:64 | a key survives if and only if its value is truthy, and surviving values are unchanged |
| `Arguments.Merged` | argument_parser.py:31-32 | the key set is the union; every key of the file has the file's value; other keys keep theirs |
| `Arguments.WithDates` | argument_parser.py:36-45 | start without end: end becomes today; neither: only the start becomes `2006-03-01`; end present: nothing changes |
| `Arguments.WithDatesOnlyAddsDates` | argument_parser.py:36-45 | no existing entry changes, only date keys can appear, and afterwards at least one date is present |
| `Arguments.WithDatesLeavesEndOpen` | argument_parser.py:44-45 | with neither date, one call leaves `date_till` absent and sets `date_from` to `2006-03-01` |
| `Arguments.WithDatesNotIdempotent` | argument_parser.py:42-45 | with neither date, a second call changes the result again by adding `date_till` |
| `Arguments.ParsedParametersMeaning` | argument_parser.py:11-22 | parsing fails exactly when the named file cannot be read; otherwise `filename` is absent, file values win, other non-empty command-line values stay, and only date keys are added |
| `Arguments.ArgumentParser.constructor` | argument_parser.py:7-9 | the parameters start empty |
| `Arguments.ArgumentParser.ParseClArguments` | argument_parser.py:61-64 | the parameters become the parsed arguments without their empty values |
| `Arguments.ArgumentParser.ReadSearchParametersFromJson` | argument_parser.py:25-34 | the key-assignment loop leaves the old parameters merged with the file's; an unreadable file changes nothing and reports failure |
| `Arguments.ArgumentParser.FillInMissingDate` | argument_parser.py:36-45 | the two conditional insertions leave `WithDates` of the old parameters |
| `Arguments.ArgumentParser.ParseParameters` | argument_parser.py:11-22 | the parameters become `ParsedParameters`; when the file cannot be read, the filtered command-line values remain and failure is reported |
| `Arguments.ArgumentParser.GetParameters` | argument_parser.py:66-68 | returns the parsed parameters, which are also the object's state; when the file cannot be read, nothing is returned and the state is the filtered command-line values |

## Left out

- NLTK's `pos_tag`, `WordNetLemmatizer.lemmatize`, `stopwords.words`, `word_tokenize` and `twitter_samples.tokenized` are foreign library code. They are constant fields or inputs the model does not look into.
- `pos_tag`'s tags are assumed non-empty (type `Tag`). With an empty tag, `tag[0]` would raise; the tagger never yields one.
- The URL pattern (sentiment_analyzer.py:41-44) is an abstract string function. Its line continuations put indentation spaces inside the pattern, so its real match set is not stated.
- `Text.Lower` lower-cases ASCII letters only. Python's `str.lower` also maps non-ASCII letters and can change a string's length.
- `NaiveBayesClassifier.train`, `classify` and `classify.accuracy` compute floating-point probabilities in foreign code. The trainer is an abstract field, and the classifier an abstract function.
- `bayes_accuracy` and `accuracy_info` are a float computed by `classify.accuracy`, so they are not modelled.
- `random.shuffle` is randomness: it is the `Shuffler` input, constrained only to rearrange its argument.
- `get_naive_Bayes_classificator` and the pickle writing in `train_naive_Bayes_classificator` are file I/O.
- `DetermineSentiment`: the source's default argument `x: str = ''` (sentiment_analyzer.py:113) is not modelled; a call with no argument is the call with `""`.
- `DetermineSentiment` returns `NotTrained` where the source raises `AttributeError` because `self.classifier` does not exist yet.
- `Sentiment.TweetSentimentAnalyzer.CleanEachTweet`: the two identical cleaning loops (lines 85-90) share one method.
- `argparse` option declarations, `json.load`, `open`, `datetime.today` and `print` are I/O. The model takes their results as inputs.
- JSON numbers are modelled as integers only. No operation of the core inspects a number.
- The JSON merge loop visits keys in an arbitrary order instead of the file's order; the keys are distinct, so the result is the same.
- The `__main__` blocks of both files are demo scripts with console output.
- twitter_bot.py is left out entirely. It is tweepy authentication, cursor and stream plumbing, and console printing.
  Its counting code in `on_status` cannot run as written: it calls a misspelt `determinet_sentiment`, and its ratio keys
  are capitalised while the labels are not.
- Idempotence of preprocessing, as a design goal, is not a property of the code. Cleaning an already-cleaned list
  lemmatizes every token again, and an arbitrary lemmatizer or tagger may change it. Only the mention substitution
  (`Text.StripMentionsIdempotent`) and lower-casing (`Text.LowerIdempotent`) are proved idempotent.
