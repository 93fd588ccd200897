/** Errors raised by the modelled code, and the failure-compatible wrappers that carry them. */
module Errors {

  /** The Python exception classes the modelled code can raise, with the detail that identifies the cause. */
  datatype Error =
    | FileNotFound(path: string)
    | ValueError(reason: Reason)
    | KeyError(key: string)
    | AssertionError(reason: Reason)
    | TypeError(reason: Reason)
    | AttributeError(attribute: string)
    | IndexError(reason: Reason)
    | ImportError(name: string)

  /** The causes the modelled code raises its errors with; `Message` gives the text of each. */
  datatype Reason =
    | ZeroStep
    | NoWorkers
    | NothingToConcatenate
    | OverlapNoSuffix
    | ShapeMismatch
    | ColumnsLengthMismatch
    | ValuesLengthMismatch
    | FirstRowOutOfBounds
    | NoFrameInStore(name: string)
    | NotComparable
    | NoThresholds
    | TooFewThresholds
    | EmptyMax
    | ThresholdBelowMax
    | ThresholdAboveMin
    | NotMonotonic
    | NotFloat
    | FloatOfObject
    | NotIntegral
    | RegressionWithThresholds
    | IndexOutOfBounds
    | NoFeatureColumns
    | NotSubscriptable
    | NoStandardizers
    | NoFolds
    | TooFewSplits
    | NotCallable(typeName: string)
    | NotAMolecule
    | MissingDescType
    | ConcatNonStr
    | WrongArguments
    | NoReferenceFingerprints
    | ListIndexOutOfRange
    | NotJson
    | TargetNotInDataset(target: string)
    | NoSplitter
    | BothSplitters
    | NotCovered
    | DuplicateSuffixes
    | UnexpectedKeyword(name: string)

  /** The message the source attaches to each cause. */
  function Message(r: Reason): string {
    match r
    case ZeroStep => "range() arg 3 must not be zero"
    case NoWorkers => "max_workers must be greater than 0"
    case NothingToConcatenate => "No objects to concatenate"
    case OverlapNoSuffix => "columns overlap but no suffix specified"
    case ShapeMismatch => "shape of passed values does not match the indices"
    case ColumnsLengthMismatch => "Columns must be same length as key"
    case ValuesLengthMismatch => "Length of values does not match length of index"
    case FirstRowOutOfBounds => "index 0 is out of bounds"
    case NoFrameInStore(name) => "No data frame found in store for '" + name + "'"
    case NotComparable => "'>' not supported between instances of 'str' and 'float'"
    case NoThresholds => "Threshold list must contain at least one value."
    case TooFewThresholds => "For multi-class classification, set more than 3 values as threshold."
    case EmptyMax => "max() arg is an empty sequence"
    case ThresholdBelowMax => "Make sure final threshold value is not smaller than largest value of property"
    case ThresholdAboveMin => "Make sure first threshold value is not larger than smallest value of property"
    case NotMonotonic => "bins must increase monotonically."
    case NotFloat => "could not convert string to float"
    case FloatOfObject => "float() argument must be a string or a real number, not 'Mol'"
    case NotIntegral => "Target property should be integer if used for classification. Or specify threshold for binning."
    case RegressionWithThresholds => "Got regression task with specified thresholds. Use a classification task in this case."
    case IndexOutOfBounds => "index out of bounds"
    case NoFeatureColumns => "index 0 is out of bounds for axis 1 with size 0"
    case NotSubscriptable => "'NoneType' object is not subscriptable"
    case NoStandardizers => "No feature standardizers specified in class or in argument."
    case NoFolds => "Number of folds not specified nor in class property or as an argument."
    case TooFewSplits => "k-fold cross-validation requires at least one train/test split by setting n_splits=2 or more"
    case NotCallable(t) => "'" + t + "' object is not callable"
    case NotAMolecule => "Python argument types did not match C++ signature"
    case MissingDescType => "get_descriptor() missing 1 required positional argument: 'desc_type'"
    case ConcatNonStr => "can only concatenate str to str"
    case WrongArguments => "the arguments do not match the descriptor set's constructor"
    case NoReferenceFingerprints => "Python argument types in BulkTanimotoSimilarity(ExplicitBitVect, NoneType) did not match C++ signature"
    case ListIndexOutOfRange => "list index out of range"
    case NotJson => "Expecting value: line 1 column 1 (char 0)"
    case TargetNotInDataset(t) => "Target key '" + t + "' not in dataset!"
    case NoSplitter => "Either a splitter or multiple splitters must be specified!"
    case BothSplitters => "Either one splitter or multiple splitters must be specified, but not both!"
    case NotCovered => "Train and test set do not cover the whole dataset!"
    case DuplicateSuffixes => "Passing 'suffixes' which cause duplicate columns is not allowed."
    case UnexpectedKeyword(n) => "__init__() got an unexpected keyword argument '" + n + "'"
  }

  datatype Option<+T> = None | Some(value: T)

  datatype Result<+T> = Ok(value: T) | Err(error: Error) {
    predicate IsFailure() { Err? }
    function PropagateFailure<U>(): Result<U> requires Err? { Err(error) }
    function Extract(): T requires Ok? { value }
  }
}
